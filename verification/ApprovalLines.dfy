/**
 * An operator's line as text: what its words are, and which lines approve or grant what.
 */
module ApprovalLines {
  import opened Basics
  import opened Json
  import opened Matching
  import opened Evaluator
  import opened Approval
  import GitDiff
  import GitDiffRoundTrip

  /** A word: characters without blanks. */
  predicate IsWord(word: string) {
    word != "" && forall i :: 0 <= i < |word| ==> !IsSpace(word[i])
  }

  /** The first word of `s` stands between `i` and `j`. */
  predicate FirstWordAt(s: string, word: string, i: int, j: int) {
    0 <= i <= j <= |s| && Blank(s[..i]) && s[i..j] == word && IsWord(word) && (j == |s| || IsSpace(s[j]))
  }

  /** `s` is these words with blanks between and around them. */
  predicate Spaced(s: string, words: seq<string>)
    decreases |words|
  {
    if words == [] then Blank(s)
    else exists i, j :: 0 <= i <= |s| && i <= j <= |s| && FirstWordAt(s, words[0], i, j) && Spaced(s[j..], words[1..])
  }

  lemma {:induction false} BlankIsSkipped(s: string, i: nat)
    requires i <= |s| && Blank(s[..i])
    ensures Words(s) == Words(s[i..])
  {
    if i > 0 {
      assert s[..i][0] == s[0] && IsSpace(s[0]);
      assert s[1..][..i - 1] == s[..i][1..] && s[1..][i - 1..] == s[i..];
      BlankIsSkipped(s[1..], i - 1);
    } else {
      assert s[0..] == s;
    }
  }

  lemma {:induction false} WordLengthIs(s: string, n: nat)
    requires n <= |s| && (forall i :: 0 <= i < n ==> !IsSpace(s[i])) && (n == |s| || IsSpace(s[n]))
    ensures WordLength(s) == n
  {
    if n > 0 {
      WordLengthIs(s[1..], n - 1);
    }
  }

  lemma {:induction false} WordLengthEnds(s: string)
    ensures (forall i :: 0 <= i < WordLength(s) ==> !IsSpace(s[i])) && (WordLength(s) == |s| || IsSpace(s[WordLength(s)]))
  {
    if s != "" && !IsSpace(s[0]) {
      WordLengthEnds(s[1..]);
      forall i | 0 <= i < WordLength(s)
        ensures !IsSpace(s[i])
      {
        assert i > 0 ==> s[1..][i - 1] == s[i];
      }
    }
  }

  lemma WordsFrom(s: string, word: string, i: int, j: int)
    requires FirstWordAt(s, word, i, j)
    ensures Words(s) == [word] + Words(s[j..])
  {
    BlankIsSkipped(s, i);
    var rest := s[i..];
    forall k | 0 <= k < j - i
      ensures !IsSpace(rest[k])
    {
      assert rest[k] == word[k];
    }
    WordLengthIs(rest, j - i);
    assert rest[..j - i] == word && rest[j - i..] == s[j..];
    assert rest[0] == word[0];
  }

  lemma {:induction false} SpacedIsWords(s: string, words: seq<string>)
    requires Spaced(s, words)
    ensures Words(s) == words
    decreases |words|
  {
    if words == [] {
      assert s[..|s|] == s;
      BlankIsSkipped(s, |s|);
    } else {
      var i, j :| 0 <= i <= |s| && i <= j <= |s| && FirstWordAt(s, words[0], i, j) && Spaced(s[j..], words[1..]);
      WordsFrom(s, words[0], i, j);
      SpacedIsWords(s[j..], words[1..]);
    }
  }

  lemma {:induction false} WordsAreSpaced(s: string)
    ensures Spaced(s, Words(s))
    decreases |s|
  {
    if s != "" {
      if IsSpace(s[0]) {
        WordsAreSpaced(s[1..]);
        SpacedAfterBlank(s, Words(s[1..]));
      } else {
        var n := WordLength(s);
        WordLengthEnds(s);
        WordsAreSpaced(s[n..]);
        assert s[0..n] == s[..n] && s[..0] == "";
        assert FirstWordAt(s, s[..n], 0, n);
        assert Words(s) == [s[..n]] + Words(s[n..]);
        assert Words(s)[0] == s[..n] && Words(s)[1..] == Words(s[n..]);
      }
    }
  }

  lemma WordAfterBlank(s: string, t: string, word: string, i: int, j: int)
    requires s != "" && IsSpace(s[0]) && t == s[1..] && FirstWordAt(t, word, i, j)
    ensures FirstWordAt(s, word, i + 1, j + 1) && s[j + 1..] == t[j..]
  {
    assert s[..i + 1] == [s[0]] + t[..i];
    assert s[i + 1..j + 1] == t[i..j];
  }

  lemma SpacedAfterBlank(s: string, words: seq<string>)
    requires s != "" && IsSpace(s[0]) && Spaced(s[1..], words)
    ensures Spaced(s, words)
  {
    var t := s[1..];
    if words == [] {
      assert s == [s[0]] + t;
    } else {
      var i, j :| 0 <= i <= |t| && i <= j <= |t| && FirstWordAt(t, words[0], i, j) && Spaced(t[j..], words[1..]);
      WordAfterBlank(s, t, words[0], i, j);
    }
  }

  // The words of a text are exactly those it is made of, with blanks between and around them.
  lemma WordsIff(s: string, words: seq<string>)
    ensures Words(s) == words <==> Spaced(s, words)
  {
    WordsAreSpaced(s);
    if Spaced(s, words) {
      SpacedIsWords(s, words);
    }
  }

  // ----- numbers --------------------------------------------------------------------------------------------

  const DIGITS := "0123456789"

  lemma DigitIff(c: char, i: nat)
    requires i < 10
    ensures IsDigit(c) <==> c in DIGITS
    ensures DigitValue([DIGITS[i]]) == i
  {
    if IsDigit(c) {
      assert DIGITS[c as int - '0' as int] == c;
    }
    assert [DIGITS[i]][..0] == "" && DIGITS[i] as int == '0' as int + i;
  }

  /** Groups of digits with single underscores between them. */
  predicate IsNumeral(s: string)
    decreases |s|
  {
    exists k :: 0 < k <= |s| && (forall i :: 0 <= i < k ==> IsDigit(s[i])) && (k == |s| || (s[k] == '_' && IsNumeral(s[k + 1..])))
  }

  lemma {:induction false} DigitTextIff(s: string)
    ensures DigitText(s) <==> IsNumeral(s)
    decreases |s|
  {
    if DigitText(s) {
      var k := GitDiff.DigitRun(s);
      assert k > 0;
      if k < |s| {
        var rest := s[k + 1..];
        assert s[k] == '_' && rest != "" && rest[|rest| - 1] == s[|s| - 1];
        assert IsDigit(s[k + 1]);
        forall i | 0 < i < |rest|
          ensures IsDigit(rest[i]) || IsDigit(rest[i - 1])
        {
          assert IsDigit(s[i + k + 1]) || IsDigit(s[i + k]);
        }
        DigitTextIff(rest);
      }
    }
    if IsNumeral(s) {
      var k :| 0 < k <= |s| && (forall i :: 0 <= i < k ==> IsDigit(s[i])) && (k == |s| || (s[k] == '_' && IsNumeral(s[k + 1..])));
      if k < |s| {
        DigitTextIff(s[k + 1..]);
        NumeralContinues(s, k);
      }
    }
  }

  lemma NumeralContinues(s: string, k: nat)
    requires 0 < k < |s| && (forall i :: 0 <= i < k ==> IsDigit(s[i])) && s[k] == '_' && DigitText(s[k + 1..])
    ensures DigitText(s)
  {
    var rest := s[k + 1..];
    assert s[|s| - 1] == rest[|rest| - 1];
    forall i | 0 < i < |s|
      ensures IsDigit(s[i]) || IsDigit(s[i - 1])
    {
      if i == k + 1 {
        assert s[i] == rest[0];
      } else if i > k + 1 {
        assert s[i] == rest[i - k - 1] && s[i - 1] == rest[i - k - 2];
      }
    }
    forall i | 0 <= i < |s|
      ensures IsDigit(s[i]) || s[i] == '_'
    {
      assert i > k ==> s[i] == rest[i - k - 1];
    }
  }

  function NoMark(): char -> bool {
    (c: char) => c != '_'
  }

  /** The value of a numeral is that of its digits alone. */
  lemma {:induction false} MarksDoNotCount(s: string)
    ensures DigitValue(s) == DigitValue(Filter(s, NoMark()))
  {
    if s != "" {
      var init, last := s[..|s| - 1], s[|s| - 1];
      MarksDoNotCount(init);
      assert s == init + [last];
      FilterAppend(init, [last], NoMark());
      var kept := Filter(init, NoMark());
      if last == '_' {
        assert Filter([last], NoMark()) == [] && kept + [] == kept;
      } else {
        assert Filter([last], NoMark()) == [last] && (kept + [last])[..|kept|] == kept;
      }
    }
  }

  /** A number as int() reads it: a numeral, perhaps with a sign. */
  predicate WritesNumber(s: string, n: int) {
    || (IsNumeral(s) && n == DigitValue(Filter(s, NoMark())))
    || (s != "" && s[0] == '+' && IsNumeral(s[1..]) && n == DigitValue(Filter(s[1..], NoMark())))
    || (s != "" && s[0] == '-' && IsNumeral(s[1..]) && n == -DigitValue(Filter(s[1..], NoMark())))
  }

  // A word is a number if and only if it is written like one.
  lemma PyIntIff(s: string, n: int)
    ensures PyInt(s) == Some(n) <==> WritesNumber(s, n)
  {
    DigitTextIff(s);
    MarksDoNotCount(s);
    if s != "" {
      DigitTextIff(s[1..]);
      MarksDoNotCount(s[1..]);
    }
  }

  // ----- which lines approve --------------------------------------------------------------------------------

  /** A line that says `approve` and nothing else, whatever its case and the blanks around it. */
  predicate SaysApprove(line: string) {
    |line| <= 128 && exists i, j :: 0 <= i <= |line| && i <= j <= |line| && FirstWordAt(Lower(line), "approve", i, j) && Blank(Lower(line)[j..])
  }

  // A line approves once if and only if it says just that.
  lemma ApprovesOnceIff(line: string, requestFingerprint: Json)
    requires requestFingerprint.Digest?
    ensures ReadLine(line, requestFingerprint) == Ok(Parsed(true, 0, 0)) <==> SaysApprove(line)
  {
    var s := StripLowerLine(line);
    OnlyExactLinesApprove(line, requestFingerprint);
    if Words(s) == ["approve"] {
      ReadIsPlain(line, requestFingerprint);
    }
    ApproveIsTheWord(line);
  }

  lemma ApproveIsTheWord(line: string)
    ensures Words(StripLowerLine(line)) == ["approve"] <==> SaysApprove(line)
  {
    var s := StripLowerLine(line);
    WordsIff(s, ["approve"]);
    assert ["approve"][1..] == [];
    if SaysApprove(line) {
      var i, j :| 0 <= i <= |line| && i <= j <= |line| && FirstWordAt(Lower(line), "approve", i, j) && Blank(Lower(line)[j..]);
      assert FirstWordAt(s, ["approve"][0], i, j) && Spaced(s[j..], ["approve"][1..]);
    }
    if Spaced(s, ["approve"]) {
      var i, j :| 0 <= i <= |s| && i <= j <= |s| && FirstWordAt(s, ["approve"][0], i, j) && Spaced(s[j..], ["approve"][1..]);
      assert s == Lower(line);
    }
  }

  lemma ReadIsPlain(line: string, requestFingerprint: Json)
    requires requestFingerprint.Digest? && Words(StripLowerLine(line)) == ["approve"]
    ensures ReadLine(line, requestFingerprint) == Ok(Parsed(true, 0, 0))
  {
    var data := ResponseFromLine(StripLowerLine(line), requestFingerprint);
    assert data.Keys == {"schema_version", "kind", "request_fingerprint", "decision", "grant"};
  }

  lemma DecimalReads(n: nat)
    ensures PyInt(GitDiffRoundTrip.Decimal(n)) == Some(n)
  {
    GitDiffRoundTrip.DecimalCounts(n);
  }

  /** A line that says `grant`, a time and a number of uses, and nothing else. */
  predicate SaysGrant(line: string, ttl: nat, uses: nat) {
    |line| <= 128 && Spaced(Lower(line), ["grant", GitDiffRoundTrip.Decimal(ttl), GitDiffRoundTrip.Decimal(uses)])
  }

  // A line that grants a time and a number of uses is read as just that, or is invalid when one is out of bounds.
  lemma GrantReadsBack(line: string, requestFingerprint: Json, ttl: nat, uses: nat)
    requires requestFingerprint.Digest? && SaysGrant(line, ttl, uses)
    ensures ReadLine(line, requestFingerprint)
            == if 1 <= ttl <= 300 && 1 <= uses <= 20 then Ok(Parsed(true, ttl, uses)) else Err(InputError)
  {
    SpacedIsWords(Lower(line), ["grant", GitDiffRoundTrip.Decimal(ttl), GitDiffRoundTrip.Decimal(uses)]);
    DecimalReads(ttl);
    DecimalReads(uses);
    GrantIsParsed(Lower(line), requestFingerprint, ttl, uses);
  }

  lemma GrantIsParsed(s: string, requestFingerprint: Json, ttl: nat, uses: nat)
    requires requestFingerprint.Digest?
    requires Words(s) == ["grant", GitDiffRoundTrip.Decimal(ttl), GitDiffRoundTrip.Decimal(uses)]
    requires PyInt(GitDiffRoundTrip.Decimal(ttl)) == Some(ttl) && PyInt(GitDiffRoundTrip.Decimal(uses)) == Some(uses)
    ensures ParseApprovalResponse(ResponseFromLine(s, requestFingerprint), requestFingerprint)
            == if 1 <= ttl <= 300 && 1 <= uses <= 20 then Ok(Parsed(true, ttl, uses)) else Err(InputError)
  {
    var data := ResponseFromLine(s, requestFingerprint);
    assert data.Keys == {"schema_version", "kind", "request_fingerprint", "decision", "grant"};
    var grant := data["grant"];
    assert grant.fields.Keys == {"ttl_seconds", "max_uses"};
    assert grant.fields["ttl_seconds"] == Int(ttl) && grant.fields["max_uses"] == Int(uses);
    assert data["decision"] == Str("approve") && data["grant"] != Null;
  }

  // A line that is neither is a denial, except that three words `grant` and two numbers out of bounds are invalid.
  lemma OtherLinesDeny(line: string, requestFingerprint: Json)
    requires requestFingerprint.Digest? && !SaysApprove(line)
    requires var parts := Words(StripLowerLine(line));
             |parts| != 3 || parts[0] != "grant" || PyInt(parts[1]).None? || PyInt(parts[2]).None?
    ensures ReadLine(line, requestFingerprint) == Ok(Parsed(false, 0, 0))
  {
    ApproveIsTheWord(line);
    var data := ResponseFromLine(StripLowerLine(line), requestFingerprint);
    assert data.Keys == {"schema_version", "kind", "request_fingerprint", "decision", "grant"};
    assert data["decision"] == Str("deny") && data["grant"] == Null && "deny"[0] != "approve"[0];
  }

  // ----- response documents -----------------------------------------------------------------------------------

  /** What Python's `==` takes for one. */
  predicate IsOne(j: Json) {
    j == Int(1) || j == Bool(true) || j == Real(1.0)
  }

  predicate GrantsExactly(grant: Json, ttl: int, uses: int) {
    && grant.Obj? && grant.fields.Keys == {"ttl_seconds", "max_uses"}
    && grant.fields["ttl_seconds"] == Int(ttl) && grant.fields["max_uses"] == Int(uses)
    && 1 <= ttl <= 300 && 1 <= uses <= 20
  }

  /** A response document for the pending request, and what it says. */
  predicate Answers(data: Object, expected: Json, p: Parsed) {
    && data.Keys == {"schema_version", "kind", "request_fingerprint", "decision", "grant"}
    && IsOne(data["schema_version"]) && data["kind"] == Str("approval_response")
    && data["request_fingerprint"] == expected && expected.Digest?
    && (|| (data["decision"] == Str("deny") && data["grant"] == Null && p == Parsed(false, 0, 0))
        || (data["decision"] == Str("approve") && data["grant"] == Null && p == Parsed(true, 0, 0))
        || (data["decision"] == Str("approve") && p.approved && GrantsExactly(data["grant"], p.ttl, p.uses)))
  }

  // A response document is accepted if and only if it has exactly the five fields, names the pending request,
  // and denies, approves once, or approves with a grant within its bounds; a denial never carries a grant.
  lemma ResponseIsAcceptedIff(data: Object, expected: Json, p: Parsed)
    ensures ParseApprovalResponse(data, expected) == Ok(p) <==> Answers(data, expected, p)
  {
    assert "deny"[0] != "approve"[0];
    if data.Keys == {"schema_version", "kind", "request_fingerprint", "decision", "grant"} {
      assert PyEqual(data["schema_version"], Int(1)) <==> IsOne(data["schema_version"]) by {
        OneIff(data["schema_version"]);
      }
    }
  }

  lemma OneIff(j: Json)
    ensures PyEqual(j, Int(1)) <==> IsOne(j)
  {
    if j.Int? {
      assert (j.n as real).Floor == j.n;
    }
  }
}
