// `camel_to_snake`: two regex substitutions followed by `lower()`, written
// here as the left-to-right scans `re.sub` performs for these two regexes.
module Naming {

  predicate IsUpper(c: char) { 'A' <= c <= 'Z' }
  predicate IsLower(c: char) { 'a' <= c <= 'z' }
  predicate IsDigit(c: char) { '0' <= c <= '9' }

  /** Length of the longest prefix of `s` made of `[a-z]`. */
  function LowerRun(s: string): (n: nat)
    ensures n <= |s|
    ensures forall i :: 0 <= i < n ==> IsLower(s[i])
    ensures n < |s| ==> !IsLower(s[n])
  {
    if s == [] || !IsLower(s[0]) then 0 else 1 + LowerRun(s[1..])
  }

  /**
   * `re.sub("(.)([A-Z][a-z]+)", r"\1_\2", s)`: wherever a character other than a
   * newline is followed by a capital and a run of lower-case letters, put `_` after
   * that character; the scan resumes after the lower-case run.
   */
  function SplitWords(s: string): string
    decreases |s|
  {
    if |s| < 3 then s
    else if s[0] != '\n' && IsUpper(s[1]) && IsLower(s[2]) then
      var j := 2 + LowerRun(s[2..]);
      [s[0], '_'] + s[1..j] + SplitWords(s[j..])
    else [s[0]] + SplitWords(s[1..])
  }

  /** `re.sub("([a-z0-9])([A-Z])", r"\1_\2", s)`: `_` between a lower-case letter or digit and a capital. */
  function SplitHumps(s: string): string
    decreases |s|
  {
    if |s| < 2 then s
    else if (IsLower(s[0]) || IsDigit(s[0])) && IsUpper(s[1]) then [s[0], '_', s[1]] + SplitHumps(s[2..])
    else [s[0]] + SplitHumps(s[1..])
  }

  function LowerChar(c: char): (d: char)
    ensures !IsUpper(d)
    ensures d == '_' <==> c == '_'
  {
    if IsUpper(c) then (c as int + 32) as char else c
  }

  /** `s.lower()` on ASCII letters. */
  function Lower(s: string): (r: string)
    ensures |r| == |s|
    ensures forall i :: 0 <= i < |s| ==> r[i] == LowerChar(s[i])
  {
    seq(|s|, i requires 0 <= i < |s| => LowerChar(s[i]))
  }

  function CamelToSnake(name: string): string
  {
    Lower(SplitHumps(SplitWords(name)))
  }

  /** `s` with every `_` deleted. */
  function Unscored(s: string): string
  {
    if s == [] then [] else (if s[0] == '_' then [] else [s[0]]) + Unscored(s[1..])
  }

  predicate NoUpper(s: string)
  {
    forall i :: 0 <= i < |s| ==> !IsUpper(s[i])
  }

  // ----- what the conversion promises -----

  /** The result has no capital letters. */
  lemma SnakeHasNoUpper(name: string)
    ensures NoUpper(CamelToSnake(name))
  {
  }

  lemma {:induction false} UnscoredAppend(a: string, b: string)
    ensures Unscored(a + b) == Unscored(a) + Unscored(b)
  {
    if a != [] {
      assert (a + b)[0] == a[0] && (a + b)[1..] == a[1..] + b;
      UnscoredAppend(a[1..], b);
    } else {
      assert a + b == b;
    }
  }

  lemma {:induction false} SplitWordsOnlyAddsUnderscores(s: string)
    ensures Unscored(SplitWords(s)) == Unscored(s)
    decreases |s|
  {
    hide SplitWords, SplitHumps, Lower;
    SplitWordsStep(s);
    if |s| >= 3 {
      if s[0] != '\n' && IsUpper(s[1]) && IsLower(s[2]) {
        var j := 2 + LowerRun(s[2..]);
        SplitWordsOnlyAddsUnderscores(s[j..]);
        assert s == [s[0]] + s[1..j] + s[j..];
        UnscoredAppend([s[0], '_'] + s[1..j], SplitWords(s[j..]));
        UnscoredAppend([s[0], '_'], s[1..j]);
        UnscoredAppend([s[0]] + s[1..j], s[j..]);
        UnscoredAppend([s[0]], s[1..j]);
        assert Unscored([s[0], '_']) == Unscored([s[0]]) by {
          assert [s[0], '_'][1..] == ['_'];
        }
      } else {
        SplitWordsOnlyAddsUnderscores(s[1..]);
        assert s == [s[0]] + s[1..];
        UnscoredAppend([s[0]], SplitWords(s[1..]));
        UnscoredAppend([s[0]], s[1..]);
      }
    }
  }

  lemma {:induction false} SplitHumpsOnlyAddsUnderscores(s: string)
    ensures Unscored(SplitHumps(s)) == Unscored(s)
    decreases |s|
  {
    hide SplitWords, SplitHumps, Lower, LowerRun;
    SplitHumpsStep(s);
    if |s| >= 2 {
      if (IsLower(s[0]) || IsDigit(s[0])) && IsUpper(s[1]) {
        SplitHumpsOnlyAddsUnderscores(s[2..]);
        assert s == [s[0], s[1]] + s[2..];
        UnscoredAppend([s[0], '_', s[1]], SplitHumps(s[2..]));
        UnscoredAppend([s[0], s[1]], s[2..]);
        assert [s[0], '_', s[1]][1..] == ['_', s[1]] && [s[0], s[1]][1..] == [s[1]];
      } else {
        SplitHumpsOnlyAddsUnderscores(s[1..]);
        assert s == [s[0]] + s[1..];
        UnscoredAppend([s[0]], SplitHumps(s[1..]));
        UnscoredAppend([s[0]], s[1..]);
      }
    }
  }

  lemma {:induction false} UnscoredLower(s: string)
    ensures Unscored(Lower(s)) == Lower(Unscored(s))
  {
    hide Unscored, Lower, SplitWords, SplitHumps, LowerRun;
    UnscoredStep(s);
    UnscoredStep(Lower(s));
    if s != [] {
      UnscoredLower(s[1..]);
      LowerCons(s);
      assert Lower(s)[0] == LowerChar(s[0]) && Lower(s)[1..] == Lower(s[1..]);
      if s[0] != '_' {
        var u := Unscored(s[1..]);
        LowerCons([s[0]] + u);
        assert ([s[0]] + u)[0] == s[0] && ([s[0]] + u)[1..] == u;
      }
    }
  }

  lemma UnscoredStep(s: string)
    ensures s == [] ==> Unscored(s) == []
    ensures s != [] ==> Unscored(s) == (if s[0] == '_' then [] else [s[0]]) + Unscored(s[1..])
  {
  }

  lemma LowerCons(s: string)
    requires s != []
    ensures Lower(s) == [LowerChar(s[0])] + Lower(s[1..])
  {
    hide Unscored, SplitWords, SplitHumps, LowerRun;
    assert forall i :: 0 <= i < |s| ==> Lower(s)[i] == ([LowerChar(s[0])] + Lower(s[1..]))[i];
  }

  /** Deleting the underscores undoes the conversion up to case: only `_` is ever inserted. */
  lemma SnakeOnlyAddsUnderscores(name: string)
    ensures Unscored(CamelToSnake(name)) == Unscored(Lower(name))
  {
    var w := SplitWords(name);
    SplitWordsOnlyAddsUnderscores(name);
    SplitHumpsOnlyAddsUnderscores(w);
    UnscoredLower(SplitHumps(w));
    UnscoredLower(name);
  }

  lemma {:induction false} SplitWordsNoUpper(s: string)
    requires NoUpper(s)
    ensures SplitWords(s) == s
    decreases |s|
  {
    if |s| >= 3 {
      assert !IsUpper(s[1]);
      SplitWordsNoUpper(s[1..]);
      assert s == [s[0]] + s[1..];
    }
  }

  lemma {:induction false} SplitHumpsNoUpper(s: string)
    requires NoUpper(s)
    ensures SplitHumps(s) == s
    decreases |s|
  {
    if |s| >= 2 {
      assert !IsUpper(s[1]);
      SplitHumpsNoUpper(s[1..]);
      assert s == [s[0]] + s[1..];
    }
  }

  /** Converting a converted name changes nothing. */
  lemma SnakeIdempotent(name: string)
    ensures CamelToSnake(CamelToSnake(name)) == CamelToSnake(name)
  {
    var r := CamelToSnake(name);
    SplitWordsNoUpper(r);
    SplitHumpsNoUpper(r);
    assert Lower(r) == r;
  }

  /** A name that is already snake case is returned unchanged. */
  lemma SnakeKeepsSnake(name: string)
    requires NoUpper(name)
    ensures CamelToSnake(name) == name
  {
    SplitWordsNoUpper(name);
    SplitHumpsNoUpper(name);
    assert Lower(name) == name;
  }

  // ----- the documented conversions -----

  lemma EmptyName()
    ensures CamelToSnake("") == ""
  {
  }

  lemma AllCapitals()
    ensures CamelToSnake("ID") == "id"
  {
    assert SplitWords("ID") == "ID";
    assert SplitHumps("ID") == "ID" by {
      assert "ID"[1..] == "D";
    }
  }

  /** The scan copies any prefix in which no word starts. */
  lemma {:induction false} SplitWordsCopies(s: string, k: nat)
    requires k <= |s|
    requires forall i :: 0 <= i < k && i + 2 < |s| ==> !(s[i] != '\n' && IsUpper(s[i + 1]) && IsLower(s[i + 2]))
    ensures SplitWords(s) == s[..k] + SplitWords(s[k..])
    decreases k
  {
    hide SplitWords, SplitHumps, Lower;
    SplitWordsStep(s);
    SplitWordsStep(s[k..]);
    if k == 0 {
      assert s[..0] == [] && s[0..] == s;
    } else if |s| < 3 {
      assert SplitWords(s[k..]) == s[k..];
      assert s == s[..k] + s[k..];
    } else {
      forall i | 0 <= i < k - 1 && i + 2 < |s[1..]|
        ensures !(s[1..][i] != '\n' && IsUpper(s[1..][i + 1]) && IsLower(s[1..][i + 2]))
      {
        assert s[1..][i] == s[i + 1] && s[1..][i + 1] == s[i + 2] && s[1..][i + 2] == s[i + 3];
      }
      SplitWordsCopies(s[1..], k - 1);
      assert s[1..][k - 1..] == s[k..];
      assert s[..k] == [s[0]] + s[1..][..k - 1];
    }
  }

  lemma {:induction false} NoHumps(s: string)
    requires forall i :: 0 <= i < |s| - 1 ==> !((IsLower(s[i]) || IsDigit(s[i])) && IsUpper(s[i + 1]))
    ensures SplitHumps(s) == s
    decreases |s|
  {
    if |s| >= 2 {
      NoHumps(s[1..]);
      assert s == [s[0]] + s[1..];
    }
  }

  lemma CamelWord()
    ensures CamelToSnake("bubbleId") == "bubble_id"
  {
    hide SplitWords, SplitHumps, Lower;
    CamelWordSplit();
    CamelWordHumps();
    CamelWordLower();
  }

  lemma CamelWordHumps()
    ensures SplitHumps("bubble_Id") == "bubble_Id"
  {
    NoHumps("bubble_Id");
  }

  lemma CamelWordSplit()
    ensures SplitWords("bubbleId") == "bubble_Id"
  {
    var s := "bubbleId";
    SplitWordsCopies(s, 5);
    CamelWordTail();
    CamelWordPieces();
  }

  lemma CamelWordPieces()
    ensures "bubbleId"[..5] == "bubbl" && "bubbleId"[5..] == "eId"
    ensures "bubbl" + "e_Id" == "bubble_Id"
  {
  }

  lemma CamelWordTail()
    ensures SplitWords("eId") == "e_Id"
  {
    var s := "eId";
    assert s[2..] == "d" && LowerRun("d") == 1 && s[1..3] == "Id" && s[3..] == "";
  }

  lemma CamelWordLower()
    ensures Lower("bubble_Id") == "bubble_id"
  {
  }

  lemma Acronym()
    ensures CamelToSnake("HTMLContent") == "html_content"
  {
    hide SplitWords, SplitHumps, Lower;
    AcronymSplit();
    AcronymHumps();
    AcronymLower();
  }

  lemma AcronymHumps()
    ensures SplitHumps("HTML_Content") == "HTML_Content"
  {
    NoHumps("HTML_Content");
  }

  lemma AcronymSplit()
    ensures SplitWords("HTMLContent") == "HTML_Content"
  {
    var s := "HTMLContent";
    SplitWordsCopies(s, 3);
    AcronymTail();
    AcronymPieces();
  }

  lemma AcronymPieces()
    ensures "HTMLContent"[..3] == "HTM" && "HTMLContent"[3..] == "LContent"
    ensures "HTM" + "L_Content" == "HTML_Content"
  {
  }

  lemma AcronymTail()
    ensures SplitWords("LContent") == "L_Content"
  {
    hide SplitWords, LowerRun;
    var s := "LContent";
    SplitWordsStep(s);
    SplitWordsStep("");
    ContentRun();
    assert s[2..] == "ontent" && s[1..8] == "Content" && s[8..] == "";
  }

  lemma ContentRun()
    ensures LowerRun("ontent") == 6
  {
  }

  lemma SplitHumpsStep(s: string)
    ensures SplitHumps(s) ==
      if |s| < 2 then s
      else if (IsLower(s[0]) || IsDigit(s[0])) && IsUpper(s[1]) then [s[0], '_', s[1]] + SplitHumps(s[2..])
      else [s[0]] + SplitHumps(s[1..])
  {
  }

  lemma SplitWordsStep(s: string)
    ensures SplitWords(s) ==
      if |s| < 3 then s
      else if s[0] != '\n' && IsUpper(s[1]) && IsLower(s[2]) then
        var j := 2 + LowerRun(s[2..]);
        [s[0], '_'] + s[1..j] + SplitWords(s[j..])
      else [s[0]] + SplitWords(s[1..])
  {
  }

  lemma AcronymLower()
    ensures Lower("HTML_Content") == "html_content"
  {
  }
}
