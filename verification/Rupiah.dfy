/** How notification texts show an amount: idr(1500000) is "Rp 1.500.000". */
module Rupiah {
  // -------------------------------------------------------------- decimal notation

  function DigitChar(d: int): (c: char)
    requires 0 <= d <= 9
    ensures '0' <= c <= '9' && DigitValue(c) == d
  {
    '0' + d as char
  }

  function DigitValue(c: char): int {
    c as int - '0' as int
  }

  function Digits(n: nat): (s: string)
    ensures |s| >= 1 && IsNumber(s)
  {
    if n < 10 then [DigitChar(n)] else Digits(n / 10) + [DigitChar(n % 10)]
  }

  predicate IsNumber(s: string) {
    forall i :: 0 <= i < |s| ==> '0' <= s[i] <= '9'
  }

  /** strconv.FormatInt in base ten. */
  function FormatInt(n: int): string {
    if n < 0 then "-" + Digits(-n) else Digits(n)
  }

  function ParseNat(s: string): int {
    if s == "" then 0 else 10 * ParseNat(s[..|s| - 1]) + DigitValue(s[|s| - 1])
  }

  function ParseInt(s: string): int {
    if s != "" && s[0] == '-' then -ParseNat(s[1..]) else ParseNat(s)
  }

  lemma {:induction false} ParseDigits(n: nat)
    ensures ParseNat(Digits(n)) == n
  {
    var s := Digits(n);
    if n >= 10 {
      ParseDigits(n / 10);
      assert s[..|s| - 1] == Digits(n / 10);
    } else {
      assert s[..0] == "";
    }
  }

  lemma ParseFormat(n: int)
    ensures ParseInt(FormatInt(n)) == n
  {
    if n < 0 {
      ParseDigits(-n);
      assert FormatInt(n)[1..] == Digits(-n);
    } else {
      ParseDigits(n);
    }
  }

  // ---------------------------------------------------------------------- grouping

  /** Groups of three characters, counted from the right. */
  function Groups(s: string): (g: seq<string>)
    ensures |g| >= 1
  {
    if |s| <= 3 then [s] else Groups(s[..|s| - 3]) + [s[|s| - 3..]]
  }

  /** strings.Join. */
  function Join(parts: seq<string>, separator: string): string {
    if parts == [] then ""
    else if |parts| == 1 then parts[0]
    else parts[0] + separator + Join(parts[1..], separator)
  }

  function IdrText(amount: int): string {
    "Rp " + Join(Groups(FormatInt(amount)), ".")
  }

  /** The formatting loop: cut three characters off the right until at most three remain. */
  method Idr(amount: int) returns (text: string)
    ensures text == IdrText(amount)
  {
    var s := FormatInt(amount);
    var parts: seq<string> := [];
    while |s| > 3
      invariant Groups(s) + parts == Groups(FormatInt(amount))
      decreases |s|
    {
      parts := [s[|s| - 3..]] + parts;
      s := s[..|s| - 3];
      assert Groups(s) + parts == Groups(s) + [parts[0]] + parts[1..];
    }
    parts := [s] + parts;
    text := "Rp " + Join(parts, ".");
  }

  // -------------------------------------------------------------------- round trip

  function WithoutDots(s: string): string {
    if s == "" then "" else if s[0] == '.' then WithoutDots(s[1..]) else [s[0]] + WithoutDots(s[1..])
  }

  /** What a reader does: drop "Rp " and the dots, read the decimal number. */
  function ReadIdr(text: string): int
    requires |text| >= 3
  {
    ParseInt(WithoutDots(text[3..]))
  }

  lemma {:induction false} WithoutDotsConcat(s: string, t: string)
    ensures WithoutDots(s + t) == WithoutDots(s) + WithoutDots(t)
  {
    if s == "" {
      assert s + t == t;
    } else {
      WithoutDotsConcat(s[1..], t);
      assert (s + t)[0] == s[0] && (s + t)[1..] == s[1..] + t;
      var rest, more := WithoutDots(s[1..]), WithoutDots(t);
      assert [s[0]] + (rest + more) == ([s[0]] + rest) + more;
    }
  }

  lemma {:induction false} WithoutDotsKeeps(s: string)
    requires '.' !in s
    ensures WithoutDots(s) == s
  {
    if s != "" { WithoutDotsKeeps(s[1..]); }
  }

  lemma {:induction false} JoinAppend(parts: seq<string>, last: string)
    requires parts != []
    ensures Join(parts + [last], ".") == Join(parts, ".") + "." + last
  {
    if |parts| == 1 {
      assert (parts + [last])[1..] == [last];
    } else {
      JoinAppend(parts[1..], last);
      assert (parts + [last])[1..] == parts[1..] + [last];
      assert parts[0] + "." + (Join(parts[1..], ".") + "." + last)
          == parts[0] + "." + Join(parts[1..], ".") + "." + last;
    }
  }

  lemma JoinedTail(joined: string, init: string, last: string)
    requires WithoutDots(joined) == init && WithoutDots(last) == last
    ensures WithoutDots(joined + "." + last) == init + last
  {
    WithoutDotsConcat(joined + ".", last);
    WithoutDotsConcat(joined, ".");
    assert WithoutDots(".") == "";
    assert init + "" == init;
  }

  /** Joining the groups with dots and dropping the dots gives the characters back. */
  lemma {:induction false} JoinedGroups(s: string)
    requires '.' !in s
    ensures WithoutDots(Join(Groups(s), ".")) == s
  {
    if |s| <= 3 {
      WithoutDotsKeeps(s);
    } else {
      var init, last := s[..|s| - 3], s[|s| - 3..];
      JoinedGroups(init);
      JoinAppend(Groups(init), last);
      WithoutDotsKeeps(last);
      JoinedTail(Join(Groups(init), "."), init, last);
      assert init + last == s;
    }
  }

  /** Reading a formatted amount gives the amount back, for every integer. */
  lemma IdrRoundTrip(amount: int)
    ensures IdrText(amount)[..3] == "Rp "
    ensures ReadIdr(IdrText(amount)) == amount
  {
    var s := FormatInt(amount);
    assert '.' !in s;
    JoinedGroups(s);
    assert IdrText(amount)[3..] == Join(Groups(s), ".");
    ParseFormat(amount);
  }

  /** Different amounts are shown differently. */
  lemma IdrInjective(a: int, b: int)
    requires IdrText(a) == IdrText(b)
    ensures a == b
  {
    IdrRoundTrip(a);
    IdrRoundTrip(b);
  }

  // ------------------------------------------------------------------------- shape

  /** The text between "Rp " and its end has a dot exactly where the number of characters from there
      on is a multiple of four; everything else comes from s, in its place at the front. */
  lemma {:induction false} DotsEveryFour(s: string)
    requires s != "" && '.' !in s
    ensures var t := Join(Groups(s), ".");
            && |t| % 4 != 0 && t[0] == s[0]
            && forall i :: 0 <= i < |t| ==> (t[i] == '.' <==> (|t| - i) % 4 == 0) && (t[i] == '.' || t[i] in s)
  {
    if |s| > 3 {
      var init, last := s[..|s| - 3], s[|s| - 3..];
      DotsEveryFour(init);
      JoinAppend(Groups(init), last);
      DotsGoOn(Join(Groups(init), "."), Join(Groups(s), "."), init, last, s);
    }
  }

  lemma DotsGoOn(u: string, t: string, init: string, last: string, s: string)
    requires s == init + last && |last| == 3 && '.' !in s && t == u + "." + last
    requires forall i :: 0 <= i < |u| ==> (u[i] == '.' <==> (|u| - i) % 4 == 0) && (u[i] == '.' || u[i] in init)
    ensures forall i :: 0 <= i < |t| ==> (t[i] == '.' <==> (|t| - i) % 4 == 0) && (t[i] == '.' || t[i] in s)
  {
    forall i | 0 <= i < |t| ensures (t[i] == '.' <==> (|t| - i) % 4 == 0) && (t[i] == '.' || t[i] in s) {
      if i < |u| {
        assert t[i] == u[i];
      } else if i > |u| {
        assert t[i] == last[i - |u| - 1] && t[i] in s;
      }
    }
  }

  /** The digits of a number start with a zero only if it is zero. */
  lemma {:induction false} NoLeadingZero(n: nat)
    ensures Digits(n)[0] == '0' <==> n == 0
  {
    if n >= 10 { NoLeadingZero(n / 10); }
  }

  /** The text of any amount: "Rp ", then a dot wherever the characters from there on are a multiple of
      four, and digits everywhere else, but for the sign of a negative amount in front. */
  lemma IdrDots(amount: int)
    ensures var text := IdrText(amount);
            && |text| > 3 && text[..3] == "Rp "
            && (forall i :: 3 <= i < |text| ==> (text[i] == '.' <==> (|text| - i) % 4 == 0))
            && (forall i :: 3 <= i < |text| && text[i] != '.' ==> '0' <= text[i] <= '9' || (amount < 0 && text[i] == '-'))
            && (text[3] == '-' <==> amount < 0)
  {
    var s := FormatInt(amount);
    assert '.' !in s;
    DotsEveryFour(s);
    var t, text := Join(Groups(s), "."), IdrText(amount);
    assert forall i :: 3 <= i < |text| ==> text[i] == t[i - 3];
    assert forall c | c in s :: '0' <= c <= '9' || (amount < 0 && c == '-');
  }

  /** A non-negative amount: a first digit that is zero for zero only, digits and dots, one to three
      digits before the first dot and exactly three after each. */
  lemma IdrShape(amount: nat)
    ensures var text := IdrText(amount);
            && |text| > 3 && text[..3] == "Rp " && '0' <= text[3] <= '9' && (text[3] == '0' <==> amount == 0)
            && forall i :: 3 <= i < |text| ==>
                 if (|text| - i) % 4 == 0 then text[i] == '.' else '0' <= text[i] <= '9'
  {
    IdrDots(amount);
    DotsEveryFour(FormatInt(amount));
    NoLeadingZero(amount);
  }

  function PowerOfTen(k: nat): int {
    if k == 0 then 1 else 10 * PowerOfTen(k - 1)
  }

  /** How many digits a positive number has. */
  lemma {:induction false} DigitCount(n: nat)
    requires n > 0
    ensures PowerOfTen(|Digits(n)| - 1) <= n < PowerOfTen(|Digits(n)|)
  {
    if n >= 10 {
      DigitCount(n / 10);
    } else {
      assert PowerOfTen(1) == 10;
    }
  }

  lemma {:induction false} JoinedLength(s: string)
    requires s != ""
    ensures |Join(Groups(s), ".")| == |s| + (|s| - 1) / 3
  {
    if |s| > 3 {
      JoinedLength(s[..|s| - 3]);
      JoinAppend(Groups(s[..|s| - 3]), s[|s| - 3..]);
    }
  }

  lemma StartsWithSign(text: string)
    requires |text| > 3 && text[..3] == "Rp "
    ensures "Rp -." <= text <==> |text| > 4 && text[3] == '-' && text[4] == '.'
  {
    if |text| > 4 {
      assert text[0] == text[..3][0] && text[1] == text[..3][1] && text[2] == text[..3][2];
      assert text[..5] == [text[0], text[1], text[2], text[3], text[4]];
    }
  }

  lemma DotAfterSign(length: nat, digits: nat)
    requires digits > 0 && length == 4 + digits + digits / 3
    ensures (length - 4) % 4 == 0 <==> digits % 3 == 0
  {
  }

  lemma NegativeLength(amount: int)
    requires amount < 0
    ensures var d := |Digits(-amount)|; d > 0 && |IdrText(amount)| == 4 + d + d / 3
  {
    JoinedLength(FormatInt(amount));
  }

  /** A negative amount is shown with a lone sign before a dot exactly when its digits fill groups. */
  lemma LoneSignIff(amount: int)
    ensures "Rp -." <= IdrText(amount) <==> amount < 0 && |Digits(-amount)| % 3 == 0
  {
    IdrDots(amount);
    StartsWithSign(IdrText(amount));
    if amount < 0 {
      NegativeLength(amount);
      DotAfterSign(|IdrText(amount)|, |Digits(-amount)|);
    }
  }
}
