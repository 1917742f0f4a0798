/**
  Little-endian words: what their digits are, and that a number written in them is read back.
*/
module ElfWords {
  import opened ElfFile

  /** 256 to the power of `k`. */
  function Power(k: nat): (p: nat)
    ensures p > 0
  {
    if k == 0 then 1 else 256 * Power(k - 1)
  }

  /** The lowest `n` digits to base 256, the lowest first. */
  function Digits(v: nat, n: nat): (s: seq<byte>)
    ensures |s| == n
  {
    if n == 0 then [] else [v % 256] + Digits(v / 256, n - 1)
  }

  /** Dividing by 256 takes one digit off. */
  lemma DivideOnce(v: nat, d: byte, p: nat)
    requires p > 0
    ensures (d + 256 * v) / (256 * p) == v / p
  {
    var q, r := v / p, v % p;
    assert v == q * p + r;
    assert d + 256 * v == q * (256 * p) + (256 * r + d) by {
      assert 256 * (q * p) == q * (256 * p);
    }
    assert 256 * r + d < 256 * p;
    Quotient(d + 256 * v, 256 * p, q, 256 * r + d);
  }

  lemma Quotient(a: nat, b: nat, q: nat, r: nat)
    requires b > 0 && a == q * b + r && r < b
    ensures a / b == q
  {
    var k := a / b;
    var d := k - q;
    assert k * b == q * b + d * b;
    assert d * b + a % b == r;
    Multiple(d, b);
  }

  lemma Multiple(d: int, b: nat)
    ensures d >= 1 ==> d * b >= b
    ensures d <= -1 ==> d * b + b <= 0
  {
    if d >= 1 {
      assert d * b == (d - 1) * b + b;
    } else {
      assert d * b == (d + 1) * b - b;
    }
  }

  /** Byte number `k` of a word is its digit number `k` to base 256. */
  lemma {:induction false} WordDigit(s: seq<byte>, k: nat)
    requires k < |s|
    ensures LittleEndian(s) / Power(k) % 256 == s[k]
  {
    if k > 0 {
      WordDigit(s[1..], k - 1);
      DivideOnce(LittleEndian(s[1..]), s[0], Power(k - 1));
    }
  }

  lemma {:induction false} WordBound(s: seq<byte>)
    ensures LittleEndian(s) < Power(|s|)
  {
    if s != [] {
      WordBound(s[1..]);
    }
  }

  /** A number that fits is read back from its digits. */
  lemma {:induction false} DigitsRead(v: nat, n: nat)
    requires v < Power(n)
    ensures LittleEndian(Digits(v, n)) == v
  {
    if n > 0 {
      DigitsRead(v / 256, n - 1);
      assert Digits(v, n)[1..] == Digits(v / 256, n - 1);
    }
  }

  /** And a word is written back as the digits of what it reads. */
  lemma {:induction false} WordWritten(s: seq<byte>)
    ensures Digits(LittleEndian(s), |s|) == s
  {
    if s != [] {
      WordWritten(s[1..]);
      assert LittleEndian(s) % 256 == s[0] && LittleEndian(s) / 256 == LittleEndian(s[1..]);
    }
  }

  /** A word of a file is a number exactly when its bytes are the digits of that number. */
  lemma WordIs(data: seq<byte>, at: nat, size: nat, v: nat)
    requires at + size <= |data| && v < Power(size)
    ensures Word(data, at, size) == v <==> data[at..at + size] == Digits(v, size)
  {
    DigitsRead(v, size);
    WordWritten(data[at..at + size]);
  }
}
