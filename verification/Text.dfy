/**
 The few string operations that the modelled code relies on. Case folding is the
 ASCII part of `strings.ToLower`; white space is that of `unicode.IsSpace`.
 */
module Text {

  predicate IsSpace(c: char) {
    || '\t' <= c <= '\r' || c == ' '
    || c == '\U{0085}' || c == '\U{00A0}' || c == '\U{1680}' || '\U{2000}' <= c <= '\U{200A}'
    || c == '\U{2028}' || c == '\U{2029}' || c == '\U{202F}' || c == '\U{205F}' || c == '\U{3000}'
  }

  function TrimLeft(s: string): (t: string)
    ensures t == "" || !IsSpace(t[0])
    ensures s != "" && !IsSpace(s[0]) ==> t == s
  {
    if s != "" && IsSpace(s[0]) then TrimLeft(s[1..]) else s
  }

  function TrimRight(s: string): (t: string)
    ensures t == "" || !IsSpace(t[|t| - 1])
    ensures t <= s
    ensures s != "" && !IsSpace(s[|s| - 1]) ==> t == s
  {
    if s != "" && IsSpace(s[|s| - 1]) then TrimRight(s[..|s| - 1]) else s
  }

  /** `strings.TrimSpace`. */
  function Trim(s: string): (t: string)
    ensures t == "" || (!IsSpace(t[0]) && !IsSpace(t[|t| - 1]))
    ensures s != "" && !IsSpace(s[0]) && !IsSpace(s[|s| - 1]) ==> t == s
  {
    TrimRight(TrimLeft(s))
  }

  lemma TrimSettles(s: string)
    ensures Trim(Trim(s)) == Trim(s)
  {
    assert Trim("") == "";
  }

  function LowerChar(c: char): (l: char)
    ensures IsSpace(l) == IsSpace(c)
  {
    if 'A' <= c <= 'Z' then (c as int + 32) as char else c
  }

  /** `strings.ToLower`, for ASCII letters. */
  function Lower(s: string): (t: string)
    ensures |t| == |s| && forall i :: 0 <= i < |s| ==> t[i] == LowerChar(s[i])
  {
    seq(|s|, i requires 0 <= i < |s| => LowerChar(s[i]))
  }

  /** `strings.ToLower(strings.TrimSpace(s))`, which settles in one step. */
  function Token(s: string): (t: string)
    ensures Trim(t) == t && Lower(t) == t
  {
    Lower(Trim(s))
  }

  /** A text without capitals and without white space at its ends is in normal form. */
  lemma TokenKeeps(s: string)
    requires s != "" && !IsSpace(s[0]) && !IsSpace(s[|s| - 1]) && forall i :: 0 <= i < |s| ==> !('A' <= s[i] <= 'Z')
    ensures Token(s) == s && Trim(s) == s
  {
    assert Trim(s) == s;
    hide Trim, IsSpace;
    assert Lower(s) == s;
  }

  predicate Contains(s: string, part: string) {
    part <= s || (s != "" && Contains(s[1..], part))
  }

  const CAPITALS := "ABCDEFGHIJKLMNOPQRSTUVWXYZ"

  /** Folding, letter by letter. */
  lemma Letters()
    ensures Lower(CAPITALS) == "abcdefghijklmnopqrstuvwxyz"
  {
  }

  lemma OtherLetters(c: char)
    ensures c in CAPITALS || LowerChar(c) == c
  {
    if 'A' <= c <= 'Z' {
      assert CAPITALS[c as int - 'A' as int] == c;
    }
  }

  lemma Digits(c: char)
    ensures IsDigit(c) <==> c in "0123456789"
  {
    if '0' <= c <= '9' {
      assert "0123456789"[c as int - '0' as int] == c;
    }
  }

  lemma Spaces(c: char)
    ensures IsSpace(c) <==> 9 <= c as int <= 13 || c as int in {0x20, 0x85, 0xA0, 0x1680, 0x2028, 0x2029, 0x202F, 0x205F, 0x3000} || 0x2000 <= c as int <= 0x200A
  {
  }

  /** The text holds the part somewhere. */
  ghost predicate Says(text: string, part: string) {
    exists a, b :: text == a + part + b
  }

  lemma SaysInFront(text: string, part: string)
    requires part <= text
    ensures Says(text, part)
  {
    assert text == [] + part + text[|part|..];
  }

  lemma SaysLater(text: string, part: string)
    requires text != "" && Says(text[1..], part)
    ensures Says(text, part)
  {
    var a, b :| text[1..] == a + part + b;
    assert text == ([text[0]] + a) + part + b;
  }

  lemma SaysWhere(text: string, part: string)
    requires Says(text, part) && !(part <= text)
    ensures text != "" && Says(text[1..], part)
  {
    var a, b :| text == a + part + b;
    assert a != "";
    assert text[1..] == a[1..] + part + b;
  }

  lemma {:induction false} ContainsIff(text: string, part: string)
    ensures Contains(text, part) <==> Says(text, part)
  {
    hide Says;
    if part <= text {
      SaysInFront(text, part);
    } else {
      if text != "" {
        ContainsIff(text[1..], part);
        if Says(text[1..], part) {
          SaysLater(text, part);
        }
      }
      if Says(text, part) {
        SaysWhere(text, part);
      }
    }
  }

  // ---------- Decimal numbers ----------

  predicate IsDigit(c: char) {
    '0' <= c <= '9'
  }

  /** `%d` of a non-negative number. */
  function Itoa(n: nat): (s: string)
    ensures s != "" && forall i :: 0 <= i < |s| ==> IsDigit(s[i])
  {
    if n < 10 then ['0' + n as char] else Itoa(n / 10) + ['0' + (n % 10) as char]
  }

  /** The number that a run of digits spells. */
  function Atoi(s: string): nat
    requires forall i :: 0 <= i < |s| ==> IsDigit(s[i])
  {
    if s == "" then 0 else 10 * Atoi(s[..|s| - 1]) + (assert IsDigit(s[|s| - 1]); s[|s| - 1] as int - '0' as int)
  }

  lemma {:induction false} ItoaRoundTrip(n: nat)
    ensures Atoi(Itoa(n)) == n
  {
    if n >= 10 {
      ItoaRoundTrip(n / 10);
      assert Itoa(n)[..|Itoa(n)| - 1] == Itoa(n / 10);
    }
  }

  lemma ItoaInjective(a: nat, b: nat)
    requires Itoa(a) == Itoa(b)
    ensures a == b
  {
    ItoaRoundTrip(a);
    ItoaRoundTrip(b);
  }

  /** A number followed by a dash can be told apart from what follows. */
  lemma NumberThenDash(a: nat, x: string, b: nat, y: string)
    requires Itoa(a) + "-" + x == Itoa(b) + "-" + y
    ensures a == b
  {
    DashAfterNumber(a, x);
    DashAfterNumber(b, y);
    SameDash(Itoa(a) + "-" + x, |Itoa(a)|, |Itoa(b)|);
    assert (Itoa(a) + "-" + x)[..|Itoa(a)|] == Itoa(a);
    assert (Itoa(b) + "-" + y)[..|Itoa(b)|] == Itoa(b);
    ItoaInjective(a, b);
  }

  predicate FirstDash(s: string, k: nat) {
    k < |s| && s[k] == '-' && forall j :: 0 <= j < k ==> s[j] != '-'
  }

  lemma DashAfterNumber(n: nat, x: string)
    ensures FirstDash(Itoa(n) + "-" + x, |Itoa(n)|)
  {
    hide Itoa;
    assert forall j :: 0 <= j < |Itoa(n)| ==> IsDigit((Itoa(n) + "-" + x)[j]);
  }

  lemma SameDash(s: string, k: nat, m: nat)
    requires FirstDash(s, k) && FirstDash(s, m)
    ensures k == m
  {
  }

  // ---------- Lists of values ----------

  predicate IsDelimiter(c: char) {
    c == ',' || c == '\n' || c == '\r' || c == '\t'
  }

  function Field(s: string): (n: nat)
    ensures n <= |s| && (n < |s| ==> IsDelimiter(s[n]))
  {
    if s == "" || IsDelimiter(s[0]) then 0 else 1 + Field(s[1..])
  }

  /** `splitRuleValues`: the trimmed non-blank pieces between delimiters. */
  function SplitRuleValues(s: string): (values: seq<string>)
    decreases |s|
  {
    var n := Field(s);
    Piece(s[..n]) + (if n < |s| then SplitRuleValues(s[n + 1..]) else [])
  }

  function Piece(s: string): seq<string> {
    if Trim(s) != "" then [Trim(s)] else []
  }

  predicate AllSpace(s: string) {
    forall i :: 0 <= i < |s| ==> IsSpace(s[i])
  }

  lemma {:induction false} TrimBlankIff(s: string)
    ensures Trim(s) == "" <==> AllSpace(s)
  {
    TrimLeftSuffix(s);
    TrimRightPrefix(TrimLeft(s));
  }

  lemma {:induction false} TrimLeftSuffix(s: string)
    ensures |TrimLeft(s)| <= |s| && s[|s| - |TrimLeft(s)|..] == TrimLeft(s)
    ensures AllSpace(s[..|s| - |TrimLeft(s)|])
  {
    if s != "" && IsSpace(s[0]) {
      TrimLeftSuffix(s[1..]);
      var k := |s| - |TrimLeft(s)|;
      assert s[..k] == [s[0]] + s[1..][..k - 1];
    }
  }

  lemma {:induction false} TrimRightPrefix(s: string)
    ensures AllSpace(s[|TrimRight(s)|..])
  {
    if s != "" && IsSpace(s[|s| - 1]) {
      TrimRightPrefix(s[..|s| - 1]);
      var k := |TrimRight(s)|;
      assert s[k..] == s[..|s| - 1][k..] + [s[|s| - 1]];
    }
  }

  /** What is left is the part between the outermost characters that are not white space. */
  lemma TrimIs(s: string)
    ensures exists a, b :: AllSpace(a) && AllSpace(b) && s == a + Trim(s) + b
  {
    TrimLeftSuffix(s);
    TrimRightPrefix(TrimLeft(s));
    var left, trimmed := TrimLeft(s), Trim(s);
    var a, b := s[..|s| - |left|], left[|trimmed|..];
    assert trimmed == left[..|trimmed|];
    hide *;
    Rejoined(s, |s| - |left|);
    Rejoined(left, |trimmed|);
    Regrouped(a, trimmed, b);
  }

  lemma Rejoined(s: string, k: nat)
    requires k <= |s|
    ensures s[..k] + s[k..] == s
  {
  }

  lemma Regrouped(a: string, b: string, c: string)
    ensures a + (b + c) == a + b + c
  {
  }

  const DELIMITERS := {',', '\n', '\r', '\t'}

  lemma {:induction false} FieldEnds(a: string, d: char, b: string)
    requires d in DELIMITERS
    ensures Field(a + [d] + b) == (if Field(a) < |a| then Field(a) else |a|)
  {
    if a != "" && !IsDelimiter(a[0]) {
      FieldEnds(a[1..], d, b);
      assert (a + [d] + b)[1..] == a[1..] + [d] + b;
    }
  }

  lemma {:induction false} FieldWhole(s: string)
    requires forall i :: 0 <= i < |s| ==> s[i] !in DELIMITERS
    ensures Field(s) == |s|
  {
    if s != "" {
      FieldWhole(s[1..]);
    }
  }

  /** A text without delimiters holds one value, its trimmed self, or none if it is blank. */
  lemma OneValue(s: string)
    requires forall i :: 0 <= i < |s| ==> s[i] !in DELIMITERS
    ensures SplitRuleValues(s) == if AllSpace(s) then [] else [Trim(s)]
  {
    FieldWhole(s);
    TrimBlankIff(s);
    hide Trim;
    assert s[..|s|] == s;
  }

  lemma FirstPiece(s: string)
    ensures SplitRuleValues(s) == Piece(s[..Field(s)]) + (if Field(s) < |s| then SplitRuleValues(s[Field(s) + 1..]) else [])
  {
    hide Field, Trim;
  }

  lemma Parts(a: string, d: char, b: string, n: nat)
    requires n <= |a|
    ensures var s := a + [d] + b;
            s[..n] == a[..n] && if n < |a| then s[n + 1..] == a[n + 1..] + [d] + b else s[n + 1..] == b
  {
  }

  lemma ConcatAssociates(a: seq<string>, b: seq<string>, c: seq<string>)
    ensures a + (b + c) == a + b + c && a + [] == a
  {
  }

  /** The values on both sides of a delimiter follow each other. */
  lemma {:induction false} ValuesConcat(a: string, d: char, b: string)
    requires d in DELIMITERS
    ensures SplitRuleValues(a + [d] + b) == SplitRuleValues(a) + SplitRuleValues(b)
    decreases |a|
  {
    hide Trim, Field, SplitRuleValues, Piece;
    var s, n := a + [d] + b, Field(a);
    FieldEnds(a, d, b);
    FirstPiece(s);
    FirstPiece(a);
    Parts(a, d, b, n);
    ConcatAssociates(Piece(a[..n]), if n < |a| then SplitRuleValues(a[n + 1..]) else [], SplitRuleValues(b));
    if n < |a| {
      ValuesConcat(a[n + 1..], d, b);
    }
  }

  /** A blank field holds no value. */
  lemma {:induction false} BlankHasNoValues(s: string)
    requires Trim(s) == ""
    ensures SplitRuleValues(s) == []
    decreases |s|
  {
    TrimBlankIff(s);
    var n := Field(s);
    TrimBlankIff(s[..n]);
    if n < |s| {
      TrimBlankIff(s[n + 1..]);
      BlankHasNoValues(s[n + 1..]);
    }
  }
}
