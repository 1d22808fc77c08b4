/** The title-suggestion route (`POST /api/ai/titles`): it asks the
    text-generation provider for three alternative titles and turns the
    free-text completion into at most three candidate lines. */
module Titles {
  import opened Common
  import opened Text

  /** How many suggestions the route keeps. */
  const MaxSuggestions: nat := 3

  /** The request body `{ title, description }`; either may be absent. */
  datatype TitlesBody = TitlesBody(title: Option<string>, description: Option<string>)

  /** The completion request sent to the provider; it embeds the current
      title and description, an absent one as the text `undefined` (the
      prompt wording is not modelled). */
  datatype CompletionRequest = CompletionRequest(title: Option<string>, description: Option<string>)

  /** `filter((s) => s.trim())`: the lines whose trim is non-empty, in order. */
  function NonBlankLines(lines: seq<string>): (r: seq<string>)
    ensures |r| <= |lines|
    ensures forall i :: 0 <= i < |r| ==> !Blank(r[i])
  {
    if lines == [] then []
    else
      TrimEmptyIffBlank(lines[0]);
      var rest := NonBlankLines(lines[1..]);
      if Trim(lines[0]) != "" then [lines[0]] + rest else rest
  }

  /** A line is kept exactly when it is not blank. */
  lemma {:induction false} NonBlankLinesMembers(lines: seq<string>)
    ensures forall x :: x in NonBlankLines(lines) <==> x in lines && !Blank(x)
  {
    if lines != [] {
      NonBlankLinesMembers(lines[1..]);
      TrimEmptyIffBlank(lines[0]);
      assert lines == [lines[0]] + lines[1..];
    }
  }

  /** Each non-blank line is kept as often as it occurs; no blank line is. */
  lemma {:induction false} NonBlankLinesCounts(lines: seq<string>)
    ensures forall x :: multiset(NonBlankLines(lines))[x] == if Blank(x) then 0 else multiset(lines)[x]
  {
    if lines != [] {
      var x, rest := lines[0], lines[1..];
      NonBlankLinesCounts(rest);
      assert lines == [x] + rest;
      if Blank(x) {
        NonBlankLinesSkip(x, rest);
      } else {
        NonBlankLinesKeep(x, rest);
      }
    }
  }

  /** `(content || '').split('\n').filter((s) => s.trim()).slice(0, 3)`. */
  function ParseSuggestions(content: Option<string>): (r: seq<string>)
    ensures |r| <= MaxSuggestions
    ensures r <= NonBlankLines(Split(OrElse(content, "")))
    ensures |r| == Min(MaxSuggestions, |NonBlankLines(Split(OrElse(content, "")))|)
    ensures forall i :: 0 <= i < |r| ==> !Blank(r[i]) && '\n' !in r[i]
  {
    var lines := NonBlankLines(Split(OrElse(content, "")));
    NonBlankLinesMembers(Split(OrElse(content, "")));
    assert forall i :: 0 <= i < |lines| ==> lines[i] in Split(OrElse(content, ""));
    if |lines| <= MaxSuggestions then lines else lines[..MaxSuggestions]
  }

  /** `a` can be obtained from `b` by deleting elements. */
  predicate Subsequence(a: seq<string>, b: seq<string>)
  {
    if a == [] then true
    else if b == [] then false
    else if a[0] == b[0] then Subsequence(a[1..], b[1..])
    else Subsequence(a, b[1..])
  }

  /** The kept lines appear in the completion in the same order. */
  lemma {:induction false} NonBlankLinesInOrder(lines: seq<string>)
    ensures Subsequence(NonBlankLines(lines), lines)
  {
    if lines != [] {
      NonBlankLinesInOrder(lines[1..]);
      TrimEmptyIffBlank(lines[0]);
      var rest := NonBlankLines(lines[1..]);
      if Trim(lines[0]) == "" {
        assert NonBlankLines(lines) == rest;
        SubsequenceSkip(rest, lines);
      }
    }
  }

  /** Dropping the head of the longer sequence keeps a subsequence. */
  lemma {:induction false} SubsequenceSkip(a: seq<string>, b: seq<string>)
    requires b != [] && Subsequence(a, b[1..])
    ensures Subsequence(a, b)
    decreases |b|, |a|
  {
    if a != [] && a[0] == b[0] {
      SubsequenceTail(a, b[1..]);
    }
  }

  /** Dropping the head of a subsequence keeps a subsequence. */
  lemma {:induction false} SubsequenceTail(a: seq<string>, b: seq<string>)
    requires a != [] && Subsequence(a, b)
    ensures Subsequence(a[1..], b)
    decreases |b|, |a|
  {
    if a[0] == b[0] {
      if a[1..] != [] {
        SubsequenceSkip(a[1..], b);
      }
    } else {
      SubsequenceTail(a, b[1..]);
      if a[1..] != [] {
        SubsequenceSkip(a[1..], b);
      }
    }
  }

  /** The suggestions are lines of the completion, verbatim (not trimmed),
      in the order in which the completion has them. */
  lemma SuggestionsAreLines(content: Option<string>)
    ensures Subsequence(ParseSuggestions(content), Split(OrElse(content, "")))
  {
    var lines := Split(OrElse(content, ""));
    NonBlankLinesInOrder(lines);
    var kept := NonBlankLines(lines);
    var r := ParseSuggestions(content);
    PrefixOfSubsequence(r, kept, lines);
  }

  lemma {:induction false} PrefixOfSubsequence(p: seq<string>, a: seq<string>, b: seq<string>)
    requires p <= a && Subsequence(a, b)
    ensures Subsequence(p, b)
    decreases |b|
  {
    if p != [] {
      if a[0] == b[0] {
        assert p[0] == a[0];
        PrefixOfSubsequence(p[1..], a[1..], b[1..]);
      } else {
        PrefixOfSubsequence(p, a, b[1..]);
      }
    }
  }

  /** A missing or empty completion yields no suggestions. */
  lemma EmptyCompletion()
    ensures ParseSuggestions(None) == []
    ensures ParseSuggestions(Some("")) == []
  {
    assert Split("") == [""];
    assert Trim("") == "";
  }

  /** A blank head line is dropped. */
  lemma NonBlankLinesSkip(x: string, rest: seq<string>)
    requires Blank(x)
    ensures NonBlankLines([x] + rest) == NonBlankLines(rest)
  {
    TrimEmptyIffBlank(x);
    assert ([x] + rest)[1..] == rest;
  }

  /** A non-blank head line is kept. */
  lemma NonBlankLinesKeep(x: string, rest: seq<string>)
    requires !Blank(x)
    ensures NonBlankLines([x] + rest) == [x] + NonBlankLines(rest)
  {
    TrimEmptyIffBlank(x);
    assert ([x] + rest)[1..] == rest;
  }

  /** Lines none of which is blank are all kept. */
  lemma {:induction false} NonBlankLinesAllKept(lines: seq<string>)
    requires forall i :: 0 <= i < |lines| ==> !Blank(lines[i])
    ensures NonBlankLines(lines) == lines
  {
    if lines != [] {
      NonBlankLinesAllKept(lines[1..]);
      NonBlankLinesKeep(lines[0], lines[1..]);
      assert lines == [lines[0]] + lines[1..];
    }
  }

  lemma {:induction false} KeepFour(a: string, blank: string, b: string, c: string, d: string)
    requires !Blank(a) && Blank(blank) && !Blank(b) && !Blank(c) && !Blank(d)
    ensures NonBlankLines([a] + ([blank] + [b, c, d])) == [a] + [b, c, d]
  {
    NonBlankLinesAllKept([b, c, d]);
    NonBlankLinesSkip(blank, [b, c, d]);
    NonBlankLinesKeep(a, [blank] + [b, c, d]);
  }

  lemma {:induction false} SplitFive(a: string, blank: string, b: string, c: string, d: string)
    requires '\n' !in a && '\n' !in blank && '\n' !in b && '\n' !in c && '\n' !in d
    ensures Split(a + "\n" + blank + "\n" + b + "\n" + c + "\n" + d) == [a] + ([blank] + [b, c, d])
  {
    var pieces := [a, blank, b, c, d];
    assert pieces[1..] == [blank, b, c, d] && pieces[2..] == [b, c, d];
    assert pieces[3..] == [c, d] && pieces[4..] == [d];
    assert Join(pieces[4..]) == d;
    assert Join(pieces[3..]) == c + "\n" + d;
    assert Join(pieces[2..]) == b + "\n" + (c + "\n" + d);
    assert Join(pieces[1..]) == blank + "\n" + (b + "\n" + (c + "\n" + d));
    assert Join(pieces) == a + "\n" + (blank + "\n" + (b + "\n" + (c + "\n" + d)));
    assert a + "\n" + (blank + "\n" + (b + "\n" + (c + "\n" + d)))
        == a + "\n" + blank + "\n" + b + "\n" + c + "\n" + d;
    SplitJoin(pieces);
    assert pieces == [a] + ([blank] + [b, c, d]);
  }

  /** The example `"A\n\nB\nC\nD"` yields `["A", "B", "C"]`: a blank line is
      skipped, and of the four non-blank lines only the first three are
      kept. */
  lemma {:induction false} BlankSkippedAndCutAtThree(a: string, blank: string, b: string, c: string, d: string)
    requires !Blank(a) && Blank(blank) && !Blank(b) && !Blank(c) && !Blank(d)
    requires '\n' !in a && '\n' !in blank && '\n' !in b && '\n' !in c && '\n' !in d
    ensures ParseSuggestions(Some(a + "\n" + blank + "\n" + b + "\n" + c + "\n" + d)) == [a, b, c]
  {
    var text := a + "\n" + blank + "\n" + b + "\n" + c + "\n" + d;
    var kept := [a] + [b, c, d];
    assert NonBlankLines(Split(OrElse(Some(text), ""))) == kept by {
      assert OrElse(Some(text), "") == text;
      SplitFive(a, blank, b, c, d);
      KeepFour(a, blank, b, c, d);
    }
    var r := ParseSuggestions(Some(text));
    assert r <= kept && |r| == 3;
    assert r == kept[..3] == [a, b, c];
  }

  const NotConfigured: string := "OpenAI API key not configured"
  const DefaultFailure: string := "Failed to generate suggestions"

  /** `POST /api/ai/titles`. `completion` stands for the provider call:
      either the first choice's message content (possibly null) or the
      error it raised. Without a key the route answers at once and sends
      nothing to the provider. */
  function Post(env: Env, body: TitlesBody, completion: Outcome<Option<string>>)
    : (x: Exchange<CompletionRequest, seq<string>>)
    ensures !Present(env.openAiApiKey) ==> x.sent.None? && x.reply == Err(500, NotConfigured)
    ensures Present(env.openAiApiKey) ==>
              x.sent == Some(CompletionRequest(body.title, body.description))
    ensures x.reply.Ok? <==> Present(env.openAiApiKey) && completion.Delivered?
    ensures x.reply.Ok? ==> x.reply.status == 200 && |x.reply.value| <= MaxSuggestions
    ensures x.reply.Ok? ==> x.reply.value == ParseSuggestions(completion.data)
    ensures x.reply.Err? ==> x.reply.status == 500
    ensures Present(env.openAiApiKey) && completion.Failed? ==>
              x.reply.message == OrElse(completion.message, DefaultFailure)
  {
    if !Present(env.openAiApiKey) then Exchange(None, Err(500, NotConfigured))
    else
      var request := CompletionRequest(body.title, body.description);
      match completion
      case Failed(message) => Exchange(Some(request), Err(500, OrElse(message, DefaultFailure)))
      case Delivered(content) => Exchange(Some(request), Ok(200, ParseSuggestions(content)))
  }
}
