/** Text and YAML fields: the shapes every stored record is made of. */
module Text {

  datatype Option<+T> = None | Some(value: T)

  /** A key of a YAML map: missing, present with no value, present with a value of
      an unexpected type, or present with a value of the expected type. */
  datatype Field<+T> = Absent | Null | Bad | Val(value: T)

  /** A stored timestamp: whole seconds, or text that is not a timestamp. */
  datatype Stamp = Instant(at: int) | Unparsed(text: string)

  predicate IsSpace(c: char) {
    c == ' ' || c == '\t' || c == '\n' || c == '\r' || c == '\0' || c == '\U{0B}' || c == '\U{0C}'
  }

  predicate Blank(s: string) {
    forall i :: 0 <= i < |s| ==> IsSpace(s[i])
  }

  predicate NonBlank(f: Field<string>) {
    f.Val? && !Blank(f.value)
  }

  predicate NonBlankStamp(f: Field<Stamp>) {
    f.Val? && (f.value.Instant? || !Blank(f.value.text))
  }

  function TimeOf(f: Field<Stamp>): Option<int> {
    if f.Val? && f.value.Instant? then Some(f.value.at) else None
  }

  /** The text with leading and trailing white space removed. */
  function Strip(s: string): string {
    if |s| > 0 && IsSpace(s[0]) then Strip(s[1..])
    else if |s| > 0 && IsSpace(s[|s| - 1]) then Strip(s[..|s| - 1])
    else s
  }

  lemma StripOf(w: string)
    requires |w| > 0 && !IsSpace(w[0]) && !IsSpace(w[|w| - 1])
    ensures Strip(w) == w
  {
  }

  /** Only white space goes, and none is left at the ends. */
  lemma {:induction false} StripSplits(s: string) returns (before: string, after: string)
    ensures s == before + Strip(s) + after && Blank(before) && Blank(after)
    ensures Strip(s) != "" ==> !IsSpace(Strip(s)[0]) && !IsSpace(Strip(s)[|Strip(s)| - 1])
    decreases |s|
  {
    hide IsSpace, Blank;
    NothingIsBlank();
    if |s| > 0 && IsSpace(s[0]) {
      var rest;
      rest, after := StripSplits(s[1..]);
      before := [s[0]] + rest;
      assert s == [s[0]] + s[1..];
      BlankMore([s[0]], rest);
    } else if |s| > 0 && IsSpace(s[|s| - 1]) {
      var rest;
      before, rest := StripSplits(s[..|s| - 1]);
      after := rest + [s[|s| - 1]];
      assert s == s[..|s| - 1] + [s[|s| - 1]];
      BlankMore(rest, [s[|s| - 1]]);
    } else {
      before, after := "", "";
    }
  }

  lemma NothingIsBlank()
    ensures Blank("")
    ensures forall c: char :: IsSpace(c) ==> Blank([c])
  {
    hide IsSpace;
  }

  lemma BlankMore(a: string, b: string)
    requires Blank(a) && Blank(b)
    ensures Blank(a + b)
  {
    hide IsSpace;
  }

  predicate IsLower(c: char) { 'a' <= c <= 'z' }

  predicate IsDigit(c: char) { '0' <= c <= '9' }

  predicate AllDigits(s: string) {
    forall i :: 0 <= i < |s| ==> IsDigit(s[i])
  }

  /** Gate and branch names: a lower-case letter, then letters, digits and underscores. */
  predicate IsName(s: string) {
    && |s| > 0
    && IsLower(s[0])
    && forall i :: 0 <= i < |s| ==> IsLower(s[i]) || IsDigit(s[i]) || s[i] == '_'
  }

  predicate Distinct<T(==)>(s: seq<T>) {
    forall i, j :: 0 <= i < j < |s| ==> s[i] != s[j]
  }

  // ---- decimal numerals ----

  function DigitOf(d: nat): (c: char)
    requires d < 10
    ensures IsDigit(c) && c as int - '0' as int == d
  {
    ('0' as int + d) as char
  }

  function Decimal(n: nat): (s: string)
    ensures |s| > 0 && AllDigits(s)
  {
    if n < 10 then [DigitOf(n)] else Decimal(n / 10) + [DigitOf(n % 10)]
  }

  function NumberOf(s: string): nat
    requires AllDigits(s)
  {
    if s == [] then 0 else 10 * NumberOf(s[..|s| - 1]) + (s[|s| - 1] as int - '0' as int)
  }

  lemma {:induction false} NumberOfDecimal(n: nat)
    ensures NumberOf(Decimal(n)) == n
  {
    if n < 10 {
      assert Decimal(n)[..0] == [];
    } else {
      var s := Decimal(n);
      assert s[..|s| - 1] == Decimal(n / 10);
      NumberOfDecimal(n / 10);
    }
  }

  /** A leading zero does not change the number: "007" and "7" are one id. */
  lemma {:induction false} LeadingZero(s: string)
    requires AllDigits(s)
    ensures AllDigits("0" + s) && NumberOf("0" + s) == NumberOf(s)
  {
    var z := "0" + s;
    if s == [] {
      assert z[..0] == [];
    } else {
      assert z[..|z| - 1] == "0" + s[..|s| - 1];
      LeadingZero(s[..|s| - 1]);
    }
  }

  // ---- finite sets ----

  /** Taking one more name off a finite set makes what is left smaller. */
  lemma SmallerRest(names: set<string>, known: set<string>, x: string)
    requires x in names && x !in known
    ensures |names - (known + {x})| < |names - known|
  {
    assert names - known == (names - (known + {x})) + {x};
  }

  lemma AnElement<T>(s: set<T>) returns (x: T)
    requires s != {}
    ensures x in s
  {
    x :| x in s;
  }

  lemma {:induction false} MaxExists(s: set<int>)
    requires s != {}
    ensures exists m :: m in s && forall k :: k in s ==> k <= m
  {
    var x := AnElement(s);
    var rest := s - {x};
    if rest == {} {
      assert forall k :: k in s && k != x ==> k in rest;
    } else {
      MaxExists(rest);
      var m :| m in rest && forall k :: k in rest ==> k <= m;
      var top := if m < x then x else m;
      forall k | k in s ensures k <= top {
        assert k == x || k in rest;
      }
      assert top in s;
    }
  }

  function MaxOf(s: set<int>): (m: int)
    requires s != {}
    ensures m in s && forall k :: k in s ==> k <= m
  {
    MaxExists(s);
    var m :| m in s && forall k :: k in s ==> k <= m;
    m
  }
}
