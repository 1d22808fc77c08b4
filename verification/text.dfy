/** The JavaScript string operations the routes and the page rely on:
    `trim`, `split('\n')`, ASCII lower-casing and literal substring search. */
module Text {

  /** The characters `String.prototype.trim` removes: ECMAScript WhiteSpace
      (tab, vertical tab, form feed, space, no-break space, byte order mark
      and the space separators) and LineTerminator (LF, CR, U+2028, U+2029). */
  predicate IsWhitespace(c: char)
  {
    || c == '\t' || c == '\n' || c == '\U{000B}' || c == '\U{000C}' || c == '\r'
    || c == ' ' || c == '\U{00A0}' || c == '\U{1680}'
    || ('\U{2000}' <= c <= '\U{200A}')
    || c == '\U{2028}' || c == '\U{2029}' || c == '\U{202F}' || c == '\U{205F}'
    || c == '\U{3000}' || c == '\U{FEFF}'
  }

  /** Every character of `s` is whitespace (the empty string included). */
  predicate Blank(s: string)
  {
    forall i :: 0 <= i < |s| ==> IsWhitespace(s[i])
  }

  /** `s.trimStart()`: the longest suffix of `s` not starting with whitespace. */
  function TrimStart(s: string): (r: string)
    ensures |r| <= |s| && r == s[|s| - |r|..]
    ensures r == [] || !IsWhitespace(r[0])
    ensures forall i :: 0 <= i < |s| - |r| ==> IsWhitespace(s[i])
  {
    if s != [] && IsWhitespace(s[0]) then TrimStart(s[1..]) else s
  }

  /** `s.trimEnd()`: the longest prefix of `s` not ending with whitespace. */
  function TrimEnd(s: string): (r: string)
    ensures |r| <= |s| && r == s[..|r|]
    ensures r == [] || !IsWhitespace(r[|r| - 1])
    ensures forall i :: |r| <= i < |s| ==> IsWhitespace(s[i])
  {
    if s != [] && IsWhitespace(s[|s| - 1]) then TrimEnd(s[..|s| - 1]) else s
  }

  /** `s.trim()`: the part of `s` left between a whitespace prefix and a
      whitespace suffix, neither end of it whitespace. */
  function Trim(s: string): string
  {
    TrimEnd(TrimStart(s))
  }

  /** `s.trim()` drops only whitespace, and only at the ends: the result is
      the part of `s` between a whitespace prefix and a whitespace suffix,
      and neither end of it is whitespace. */
  lemma TrimDropsOnlyWhitespace(s: string)
    ensures |Trim(s)| <= |s|
    ensures Trim(s) == [] || (!IsWhitespace(Trim(s)[0]) && !IsWhitespace(Trim(s)[|Trim(s)| - 1]))
    ensures exists i :: 0 <= i <= |s| - |Trim(s)| && Trim(s) == s[i..i + |Trim(s)|]
                        && Blank(s[..i]) && Blank(s[i + |Trim(s)|..])
  {
    var t := TrimStart(s);
    var r := TrimEnd(t);
    var i := |s| - |t|;
    TrimStartDropsBlank(s);
    TrimEndDropsBlank(t);
    assert t[|r|..] == s[i + |r|..];
    assert r == t[..|r|] == s[i..i + |r|];
    assert r == Trim(s);
  }

  /** What `trimStart` drops is whitespace. */
  lemma TrimStartDropsBlank(s: string)
    ensures Blank(s[..|s| - |TrimStart(s)|])
  {
    var head := s[..|s| - |TrimStart(s)|];
    forall k | 0 <= k < |head| ensures IsWhitespace(head[k]) {
      assert head[k] == s[k];
    }
  }

  /** What `trimEnd` drops is whitespace. */
  lemma TrimEndDropsBlank(t: string)
    ensures Blank(t[|TrimEnd(t)|..])
  {
    var tail := t[|TrimEnd(t)|..];
    forall k | 0 <= k < |tail| ensures IsWhitespace(tail[k]) {
      assert tail[k] == t[|TrimEnd(t)| + k];
    }
  }

  /** `s.trim()` is falsy exactly when `s` is blank: this is the test behind
      `filter((s) => s.trim())` and `if (!text.trim()) return`. */
  lemma TrimEmptyIffBlank(s: string)
    ensures Trim(s) == "" <==> Blank(s)
  {
    var t := TrimStart(s);
    assert t != [] ==> t[0] == s[|s| - |t|];
  }

  /** `s.split('\n')`: the pieces between line feeds. As in JavaScript, the
      empty string splits into one empty piece and a trailing line feed
      yields a trailing empty piece. */
  function Split(s: string): (lines: seq<string>)
    ensures |lines| >= 1
    ensures forall i :: 0 <= i < |lines| ==> '\n' !in lines[i]
  {
    if s == [] then [""]
    else if s[0] == '\n' then [""] + Split(s[1..])
    else
      var rest := Split(s[1..]);
      [[s[0]] + rest[0]] + rest[1..]
  }

  /** `lines.join('\n')`, the inverse of `Split`. */
  function Join(lines: seq<string>): string
  {
    if lines == [] then ""
    else if |lines| == 1 then lines[0]
    else lines[0] + "\n" + Join(lines[1..])
  }

  lemma {:induction false} JoinPrepend(c: char, lines: seq<string>)
    requires |lines| >= 1
    ensures Join([[c] + lines[0]] + lines[1..]) == [c] + Join(lines)
  {
    var ls := [[c] + lines[0]] + lines[1..];
    if |lines| == 1 {
      assert ls == [[c] + lines[0]];
    } else {
      assert ls[1..] == lines[1..];
      var rest := "\n" + Join(lines[1..]);
      assert Join(ls) == ([c] + lines[0]) + rest;
      assert ([c] + lines[0]) + rest == [c] + (lines[0] + rest);
    }
  }

  /** Joining the pieces of a split gives back the original text. */
  lemma {:induction false} JoinSplit(s: string)
    ensures Join(Split(s)) == s
  {
    if s == [] {
    } else if s[0] == '\n' {
      JoinSplit(s[1..]);
      var ls := [""] + Split(s[1..]);
      assert ls[1..] == Split(s[1..]);
      assert s == "\n" + s[1..];
    } else {
      JoinSplit(s[1..]);
      JoinPrepend(s[0], Split(s[1..]));
      assert s == [s[0]] + s[1..];
    }
  }

  /** Splitting a join of line-feed-free pieces gives back the pieces. */
  lemma {:induction false} SplitJoin(lines: seq<string>)
    requires |lines| >= 1
    requires forall i :: 0 <= i < |lines| ==> '\n' !in lines[i]
    ensures Split(Join(lines)) == lines
    decreases |Join(lines)|
  {
    if lines[0] == "" {
      if |lines| == 1 {
      } else {
        var tail := lines[1..];
        assert Join(lines) == "\n" + Join(tail);
        assert forall i :: 0 <= i < |tail| ==> '\n' !in tail[i] by {
          forall i | 0 <= i < |tail| ensures '\n' !in tail[i] { assert tail[i] == lines[i + 1]; }
        }
        SplitJoin(tail);
        assert ("\n" + Join(tail))[1..] == Join(tail);
        assert lines == [""] + tail;
      }
    } else {
      var c := lines[0][0];
      var w := lines[0][1..];
      var shorter := [w] + lines[1..];
      assert lines[0] == [c] + w;
      assert shorter[1..] == lines[1..];
      assert forall i :: 0 <= i < |shorter| ==> '\n' !in shorter[i] by {
        forall i | 0 <= i < |shorter| ensures '\n' !in shorter[i] {
          if i > 0 { assert shorter[i] == lines[i]; }
        }
      }
      JoinPrepend(c, shorter);
      assert [[c] + shorter[0]] + shorter[1..] == lines;
      assert Join(lines) == [c] + Join(shorter);
      assert c != '\n' by { assert c == lines[0][0]; }
      SplitJoin(shorter);
      assert ([c] + Join(shorter))[1..] == Join(shorter);
    }
  }

  /** ASCII case folding, applied to both sides of a case-insensitive match. */
  function LowerChar(c: char): (d: char)
  {
    if 'A' <= c <= 'Z' then (c as int + 32) as char else c
  }

  function Lower(s: string): (r: string)
    ensures |r| == |s|
    ensures forall i :: 0 <= i < |s| ==> r[i] == LowerChar(s[i])
  {
    if s == [] then [] else [LowerChar(s[0])] + Lower(s[1..])
  }

  predicate StartsWith(s: string, p: string)
  {
    |p| <= |s| && s[..|p|] == p
  }

  /** `p` occurs in `s` as a contiguous substring. */
  predicate Includes(s: string, p: string)
  {
    StartsWith(s, p) || (s != [] && Includes(s[1..], p))
  }

  /** `p` occurs in `s` starting at position `i`. */
  predicate OccursAt(s: string, p: string, i: int)
  {
    0 <= i && i + |p| <= |s| && s[i..i + |p|] == p
  }

  /** A string includes only patterns no longer than itself. */
  lemma {:induction false} IncludesShorter(s: string, p: string)
    ensures Includes(s, p) ==> |p| <= |s|
  {
    if s != [] && !StartsWith(s, p) {
      IncludesShorter(s[1..], p);
    }
  }

  /** `Includes` agrees with the positional definition of substring. */
  lemma {:induction false} IncludesIff(s: string, p: string)
    ensures Includes(s, p) <==> exists i :: OccursAt(s, p, i)
  {
    if s == [] {
      assert Includes(s, p) ==> OccursAt(s, p, 0);
    } else {
      IncludesIff(s[1..], p);
      assert StartsWith(s, p) ==> OccursAt(s, p, 0);
      if Includes(s, p) && !StartsWith(s, p) {
        var i :| OccursAt(s[1..], p, i);
        assert s[1..][i..i + |p|] == s[i + 1..i + 1 + |p|];
        assert OccursAt(s, p, i + 1);
      }
      forall i | OccursAt(s, p, i) ensures Includes(s, p) {
        if i > 0 {
          assert s[1..][i - 1..i - 1 + |p|] == s[i..i + |p|];
          assert OccursAt(s[1..], p, i - 1);
        }
      }
    }
  }

  /** A case-insensitive literal match, as `{ $regex: q, $options: 'i' }`
      with a `q` that contains no pattern syntax. */
  predicate IncludesIgnoringCase(s: string, q: string)
  {
    Includes(Lower(s), Lower(q))
  }
}
