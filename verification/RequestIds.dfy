/** The debugger's request ids: the client port, "000", and a counter. */
module RequestIds {
  import opened Decimal

  function RequestId(connection: string, i: nat): string {
    connection + "000" + Itoa(i)
  }

  function Id(port: nat, i: nat): string {
    RequestId(Itoa(port), i)
  }

  /** The one way in which two different exchanges share an id: the longer port is the shorter one
      followed by 000 and the first digit of the other's counter. */
  predicate Clash(p: nat, i: nat, q: nat, j: nat) {
    && 1 <= p <= 6
    && 1 <= q - 10000 * p <= 9
    && Digits(i) == Digits(q - 10000 * p) + "000" + Digits(j)
  }

  lemma AppendDigit(n: nat, d: nat)
    requires n >= 1 && d < 10
    ensures Digits(10 * n + d) == Digits(n) + [DigitOf(d)]
  {
    assert (10 * n + d) / 10 == n && (10 * n + d) % 10 == d;
  }

  lemma FiveDigits(p: nat, d: nat)
    requires 1 <= p <= 9 && d < 10
    ensures Digits(10000 * p + d) == Digits(p) + "000" + [DigitOf(d)]
  {
    AppendDigit(p, 0);
    AppendDigit(10 * p, 0);
    AppendDigit(100 * p, 0);
    AppendDigit(1000 * p, d);
  }

  lemma ClashCollides(p: nat, i: nat, q: nat, j: nat)
    requires Clash(p, i, q, j)
    ensures Id(p, i) == Id(q, j)
  {
    var d := q - 10000 * p;
    FiveDigits(p, d);
    assert Digits(d) == [DigitOf(d)];
    assert Id(p, i) == Digits(p) + "000" + ([DigitOf(d)] + "000" + Digits(j));
    assert Id(q, j) == Digits(p) + "000" + [DigitOf(d)] + "000" + Digits(j);
  }

  /** A rendering that starts with 0 is "0". */
  lemma LeadingZero(n: nat)
    requires Digits(n)[0] == '0'
    ensures Digits(n) == "0"
  {
    DigitsRoundTrip(n);
  }

  lemma EqualIdsClash(p: nat, i: nat, q: nat, j: nat)
    requires p <= 65535 && q <= 65535
    requires |Digits(p)| <= |Digits(q)|
    requires Id(p, i) == Id(q, j)
    ensures (p == q && i == j) || Clash(p, i, q, j)
  {
    hide Digits;
    hide Clash;
    DigitsLength(p);
    DigitsLength(q);
    DigitsRoundTrip(i);
    DigitsRoundTrip(j);
    var k := |Digits(q)| - |Digits(p)|;
    Overlap(Digits(p), Digits(i), Digits(q), Digits(j));
    if k == 0 {
      DigitsInjective(p, q);
      DigitsInjective(i, j);
    } else if k <= 3 {
      LeadingZero(i);
      assert false;
    } else {
      LongerPort(p, i, q, j);
    }
  }

  /** What equality of two ids says about the places where they overlap. */
  lemma Overlap(P: string, I: string, Q: string, J: string)
    requires P + "000" + I == Q + "000" + J
    requires |P| <= |Q| && I != "" && J != ""
    ensures var k := |Q| - |P|;
      && |I| == |J| + k
      && (k == 0 ==> P == Q && I == J)
      && (1 <= k <= 3 ==> I[0] == '0')
      && (k == 4 ==> Q == P + "000" + [I[0]] && I == [I[0]] + "000" + J)
  {
    var s, t, k := P + "000" + I, Q + "000" + J, |Q| - |P|;
    assert |s| == |t|;
    assert s[..|P|] == P && t[..|Q|] == Q;
    assert s[|P| + 3..] == I && t[|Q| + 3..] == J;
    if 1 <= k <= 3 {
      assert s[|P| + 3] == I[0] && t[|P| + 3] == '0';
    } else if k == 4 {
      assert s[..|Q|] == P + "000" + [I[0]];
      assert t[|P| + 3..] == [t[|P| + 3]] + "000" + J;
    }
  }

  lemma LongerPort(p: nat, i: nat, q: nat, j: nat)
    requires q <= 65535
    requires |Digits(p)| == 1 && |Digits(q)| == 5
    requires var I := Digits(i);
      I != "" && Digits(q) == Digits(p) + "000" + [I[0]] && I == [I[0]] + "000" + Digits(j)
    ensures Clash(p, i, q, j)
  {
    hide Digits;
    hide Clash;
    DigitsLength(p);
    var d := FirstDigit(i);
    LeadingDigits(p, q);
    FiveDigits(p, d);
    DigitsInjective(q, 10000 * p + d);
    ClashIntro(p, i, q, j, d);
  }

  lemma ClashIntro(p: nat, i: nat, q: nat, j: nat, d: nat)
    requires 1 <= p <= 6 && 1 <= d <= 9 && q == 10000 * p + d
    requires Digits(i) == Digits(d) + "000" + Digits(j)
    ensures Clash(p, i, q, j)
  {
    hide Digits;
  }

  lemma FirstDigit(i: nat) returns (d: nat)
    requires |Digits(i)| > 1
    ensures 1 <= d <= 9 && DigitOf(d) == Digits(i)[0] && Digits(d) == [DigitOf(d)]
  {
    hide Digits;
    hide Value;
    DigitsRoundTrip(i);
    if Digits(i)[0] == '0' {
      LeadingZero(i);
      assert false;
    }
    assert IsDigit(Digits(i)[0]);
    d := Digits(i)[0] as int - '0' as int;
    OneDigit(d);
  }

  lemma LeadingDigits(p: nat, q: nat)
    requires |Digits(q)| > 1 && Digits(p) != "" && Digits(q)[0] == Digits(p)[0]
    ensures p >= 1
  {
    hide Digits;
    hide Value;
    DigitsRoundTrip(p);
    DigitsRoundTrip(q);
    DigitsLength(q);
  }

  lemma OneDigit(d: nat)
    requires d < 10
    ensures Digits(d) == [DigitOf(d)]
  {
  }

  /** For ports of 16 bits and any counters, two ids are equal exactly when port and counter are,
      or the two clash. */
  lemma SameId(p: nat, i: nat, q: nat, j: nat)
    requires p <= 65535 && q <= 65535
    ensures Id(p, i) == Id(q, j) <==> ((p == q && i == j) || Clash(p, i, q, j) || Clash(q, j, p, i))
  {
    hide Id;
    hide Clash;
    if Id(p, i) == Id(q, j) {
      if |Digits(p)| <= |Digits(q)| { EqualIdsClash(p, i, q, j); }
      else { EqualIdsClash(q, j, p, i); }
    }
    if Clash(p, i, q, j) { ClashCollides(p, i, q, j); }
    if Clash(q, j, p, i) { ClashCollides(q, j, p, i); }
  }

  /** From port 7 up the ids of different exchanges differ. */
  lemma IdsAreUnique(p: nat, i: nat, q: nat, j: nat)
    requires 7 <= p <= 65535 && 7 <= q <= 65535
    requires Id(p, i) == Id(q, j)
    ensures p == q && i == j
  {
    hide Id;
    SameId(p, i, q, j);
  }

  /** Port 7 is where uniqueness starts: every smaller port but 0 has a clash. */
  lemma SmallPortsCollide(p: nat)
    requires 1 <= p <= 6
    ensures Id(p, 50000) == Id(10000 * p + 5, 0)
  {
    FiveDigits(5, 0);
    assert Digits(5) == "5" && Digits(0) == "0";
    ClashCollides(p, 50000, 10000 * p + 5, 0);
  }
}
