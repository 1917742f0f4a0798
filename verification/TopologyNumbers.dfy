/**
  Numbers as the audit reads them.
*/
module TopologyNumbers {
  import opened Options
  import opened PythonText

  predicate IsDigit(c: char) {
    '0' <= c <= '9'
  }

  function Number(s: string): nat {
    if s == [] then 0
    else
      var c := s[|s| - 1];
      10 * Number(s[..|s| - 1]) + (if IsDigit(c) then (c - '0') as nat else 0)
  }

  /** Decimal digits without a leading zero. */
  function ParseNumber(s: string): Option<nat> {
    if s == [] || (exists i | 0 <= i < |s| :: !IsDigit(s[i])) || (s != "0" && s[0] == '0') then None
    else Some(Number(s))
  }

  lemma {:induction false} DecimalNumber(n: nat)
    ensures Number(Decimal(n)) == n
    ensures forall i | 0 <= i < |Decimal(n)| :: IsDigit(Decimal(n)[i])
    ensures n > 0 ==> Decimal(n)[0] != '0'
  {
    var s := Decimal(n);
    var c := '0' + (n % 10) as char;
    assert s[|s| - 1] == c;
    assert (c - '0') as nat == n % 10;
    if n >= 10 {
      assert s[..|s| - 1] == Decimal(n / 10);
      DecimalNumber(n / 10);
    } else {
      assert s[..|s| - 1] == [];
    }
  }

  lemma {:induction false} NumberDecimal(s: string)
    requires s != [] && (forall i | 0 <= i < |s| :: IsDigit(s[i])) && (s[0] != '0' || |s| == 1)
    ensures Decimal(Number(s)) == s
  {
    var c := s[|s| - 1];
    var front := s[..|s| - 1];
    var digit := (c - '0') as nat;
    assert '0' + digit as char == c;
    if front == [] {
      assert Number(s) == digit && s == [c];
    } else {
      NumberDecimal(front);
      NumberPositive(front);
      var n := Number(s);
      assert n == 10 * Number(front) + digit && n / 10 == Number(front) && n % 10 == digit;
      assert s == front + [c];
    }
  }

  lemma {:induction false} NumberPositive(s: string)
    requires s != [] && (forall i | 0 <= i < |s| :: IsDigit(s[i])) && s[0] != '0'
    ensures Number(s) > 0
  {
    if |s| > 1 {
      NumberPositive(s[..|s| - 1]);
    }
  }

  /** Numbers are read back from exactly their decimal texts. */
  lemma ParseExactly(s: string, n: nat)
    ensures ParseNumber(s) == Some(n) <==> s == Decimal(n)
  {
    DecimalNumber(n);
    if ParseNumber(s) == Some(n) {
      NumberDecimal(s);
    }
    if s == Decimal(n) && n == 0 {
      assert s == "0";
    }
  }
}
