/** Internet checksums: `icmp_header::assign_checksum` and `ipv4_header::assign_header_checksum`, against
    the ones' complement sum of section 1 of RFC 1071. */
module Checksum {
  import opened Bytes

  // ---- the standard's sum ----

  /** Addition with the carry brought round. */
  function OnesAdd(a: nat, b: nat): (r: nat) {
    if a + b > 0xFFFF then a + b - 0xFFFF else a + b
  }

  function Word(high: int, low: int): (r: int) {
    high * 0x100 + low
  }

  /** The sum of the 16-bit words, an odd last byte padded with zero, starting from `acc`. */
  function OnesSum(acc: nat, b: bytes): (r: nat)
    decreases |b|
  {
    if b == [] then acc
    else if |b| == 1 then OnesAdd(acc, Word(b[0], 0))
    else OnesSum(OnesAdd(acc, Word(b[0], b[1])), b[2..])
  }

  /** A message carries a right checksum when all its words, the checksum among them, sum to this. */
  predicate Checks(b: bytes) {
    OnesSum(0, b) == 0xFFFF
  }

  // ---- plain sums ----

  function WordSum(b: bytes): (r: nat) {
    if b == [] then 0
    else if |b| == 1 then Word(b[0], 0)
    else Word(b[0], b[1]) + WordSum(b[2..])
  }

  /** What end-around carries make of a number. */
  function Canon(x: nat): (r: nat) {
    if x == 0 then 0 else 1 + (x - 1) % 0xFFFF
  }

  lemma CanonAdd(x: nat, w: nat)
    requires w <= 0xFFFF
    ensures OnesAdd(Canon(x), w) == Canon(x + w)
  {
  }

  lemma {:induction false} OnesSumIs(x: nat, b: bytes)
    ensures OnesSum(Canon(x), b) == Canon(x + WordSum(b))
    decreases |b|
  {
    hide Canon, OnesAdd;
    if |b| == 1 {
      CanonAdd(x, Word(b[0], 0));
    } else if |b| > 1 {
      CanonAdd(x, Word(b[0], b[1]));
      OnesSumIs(x + Word(b[0], b[1]), b[2..]);
    }
  }

  lemma ChecksIff(b: bytes)
    ensures Checks(b) <==> WordSum(b) > 0 && WordSum(b) % 0xFFFF == 0
  {
    OnesSumIs(0, b);
  }

  lemma {:induction false} WordSumAppend(a: bytes, b: bytes)
    requires |a| % 2 == 0
    ensures WordSum(a + b) == WordSum(a) + WordSum(b)
    decreases |a|
  {
    hide Word;
    if a == [] {
      assert a + b == b;
    } else {
      assert (a + b)[2..] == a[2..] + b;
      WordSumAppend(a[2..], b);
    }
  }

  lemma {:induction false} WordSumBound(b: bytes)
    ensures WordSum(b) <= (|b| + 1) / 2 * 0xFFFF
    decreases |b|
  {
    if |b| > 1 {
      WordSumBound(b[2..]);
    }
  }

  // ---- the sources' sum ----

  const WRAP := 0x1_0000_0000

  function Wrap(x: nat): (r: nat) {
    x % WRAP
  }

  /** Two folds of a 32-bit sum, and its complement cut to 16 bits. */
  function Folded(sum: nat): (r: u16)
    requires sum < WRAP
  {
    var once := sum / 0x1_0000 + sum % 0x1_0000;
    var twice := once + once / 0x1_0000;
    0xFFFF - twice % 0x1_0000
  }

  /** Two folds suffice for any 32-bit sum. */
  lemma FoldedCompletes(sum: nat)
    requires sum < WRAP
    ensures sum + Folded(sum) > 0 && (sum + Folded(sum)) % 0xFFFF == 0
  {
  }

  lemma Multiples(whole: nat, lost: nat, k: nat)
    requires whole % 0xFFFF == 0
    ensures (k * 0xFFFF + lost + whole) % 0xFFFF == 0 <==> lost % 0xFFFF == 0
  {
  }

  /** A sum of more than 32 bits is completed exactly when what was lost of it is a multiple of 0xFFFF. */
  lemma WrappedCompletesIff(sum: nat)
    ensures (sum + Folded(Wrap(sum))) > 0 && (sum + Folded(Wrap(sum))) % 0xFFFF == 0 <==> sum / WRAP % 0xFFFF == 0
  {
    var lost := sum / WRAP;
    FoldedCompletes(Wrap(sum));
    var whole := Wrap(sum) + Folded(Wrap(sum));
    assert sum + Folded(Wrap(sum)) == lost * 0x1_0001 * 0xFFFF + lost + whole;
    Multiples(whole, lost, lost * 0x1_0001);
  }

  // ---- ICMP ----

  function IcmpSum(rep: bytes): (r: nat)
    requires |rep| == 8
  {
    Word(rep[0], rep[1]) + Word(rep[4], rep[5]) + Word(rep[6], rep[7])
  }

  lemma IcmpWords(rep: bytes)
    requires |rep| == 8
    ensures WordSum(rep) == IcmpSum(rep) + Word(rep[2], rep[3])
  {
    assert rep[2..][2..] == rep[4..] && rep[4..][2..] == rep[6..];
    assert WordSum(rep[6..]) == Word(rep[6], rep[7]) + WordSum(rep[6..][2..]);
    assert WordSum(rep[4..]) == Word(rep[4], rep[5]) + WordSum(rep[6..]);
    assert WordSum(rep[2..]) == Word(rep[2], rep[3]) + WordSum(rep[4..]);
  }

  /** The ICMP message checks exactly when its sum lost no carries (or 0xFFFF of them at a time). */
  lemma IcmpChecksIff(rep: bytes, body: bytes)
    requires |rep| == 8 && Word(rep[2], rep[3]) == Folded(Wrap(IcmpSum(rep) + WordSum(body)))
    ensures Checks(rep + body) <==> (IcmpSum(rep) + WordSum(body)) / WRAP % 0xFFFF == 0
  {
    hide Folded, Wrap, IcmpSum, Checks;
    IcmpWords(rep);
    WordSumAppend(rep, body);
    ChecksIff(rep + body);
    WrappedCompletesIff(IcmpSum(rep) + WordSum(body));
  }

  /** No carry is lost for a body of up to 131068 bytes, so not for one that fits an IP packet. */
  lemma NoneLost(rep: bytes, body: bytes)
    requires |rep| == 8 && |body| <= 131068
    ensures IcmpSum(rep) + WordSum(body) < WRAP
  {
    WordSumBound(body);
  }

  lemma WrapAdd(x: nat, y: nat)
    ensures Wrap(Wrap(x) + y) == Wrap(x + y)
  {
  }

  /** One round of the loop takes one word off what is left to sum. */
  lemma WordStep(was: nat, rest: bytes, sum: nat, left: bytes)
    requires rest != []
    requires if |rest| == 1 then left == [] && sum == Wrap(was + Word(rest[0], 0))
      else left == rest[2..] && sum == Wrap(Wrap(was + Word(rest[0], 0)) + rest[1])
    ensures Wrap(sum + WordSum(left)) == Wrap(was + WordSum(rest))
  {
    hide Wrap;
    var x := was + Word(rest[0], 0);
    if |rest| == 1 {
      WrapAdd(x, 0);
    } else {
      WrapAdd(x, rest[1]);
      WrapAdd(x + rest[1], WordSum(left));
    }
  }

  class IcmpHeader {
    const rep: array<byte>

    ghost predicate Valid()
    {
      rep.Length == 8
    }

    constructor ()
      ensures Valid() && fresh(rep)
    {
      rep := new byte[8](_ => 0);
    }

    function Decode(a: nat, b: nat): (r: u16)
      requires a < rep.Length && b < rep.Length
      reads rep
    {
      (rep[a] as int) * 0x100 + rep[b]
    }

    method Encode(a: nat, b: nat, n: u16)
      requires a < b < rep.Length
      modifies rep
      ensures Decode(a, b) == n && rep[..] == old(rep[..])[a := rep[a]][b := rep[b]]
    {
      rep[a] := n / 0x100;
      rep[b] := n % 0x100;
    }

    /** Only the checksum changes, and the message then checks if and only if the 32-bit sum of its
        other words lost no carry. */
    method AssignChecksum(body: bytes)
      requires Valid()
      modifies rep
      ensures rep[..] == old(rep[..])[2 := rep[2]][3 := rep[3]]
      ensures Checks(rep[..] + body) <==> (IcmpSum(rep[..]) + WordSum(body)) / WRAP % 0xFFFF == 0
      ensures |body| <= 131068 ==> Checks(rep[..] + body)
    {
      hide Checks, Folded, Wrap, WordSum;
      var sum := Word(rep[0], rep[1]) + Word(rep[4], rep[5]) + Word(rep[6], rep[7]);
      sum := AddBody(sum, body);
      var check := Folded(sum);
      Encode(2, 3, check);
      IcmpChecksIff(rep[..], body);
      if |body| <= 131068 {
        NoneLost(rep[..], body);
      }
    }

    /** The loop over the body, adding into an unsigned 32-bit sum. */
    static method AddBody(from: nat, body: bytes) returns (sum: nat)
      requires from < WRAP
      ensures sum == Wrap(from + WordSum(body)) < WRAP
    {
      sum := from;
      var i := 0;
      assert body[i..] == body;
      while i < |body|
        invariant i <= |body| && sum < WRAP
        invariant Wrap(sum + WordSum(body[i..])) == Wrap(from + WordSum(body))
      {
        ghost var was, rest := sum, body[i..];
        sum := Wrap(sum + Word(body[i], 0));
        i := i + 1;
        if i < |body| {
          sum := Wrap(sum + body[i]);
          i := i + 1;
        }
        WordStep(was, rest, sum, body[i..]);
      }
    }
  }

  // ---- IPv4 ----

  lemma EmptySum()
    ensures forall b: bytes :: b == [] ==> WordSum(b) == 0
  {
  }

  lemma PairSum(a: bytes, high: byte, low: byte)
    requires |a| % 2 == 0
    ensures WordSum(a + [high, low]) == WordSum(a) + Word(high, low)
  {
    WordSumAppend(a, [high, low]);
    assert [high, low][2..] == [];
  }

  lemma FieldSum(zeroed: bytes, filled: bytes, check: u16)
    requires |zeroed| == |filled| == 20 && zeroed[10] == zeroed[11] == 0
    requires filled == zeroed[10 := check / 0x100][11 := check % 0x100]
    ensures WordSum(filled) == WordSum(zeroed) + check
  {
    hide WordSum;
    assert zeroed == zeroed[..10] + [0, 0] + zeroed[12..];
    assert filled == zeroed[..10] + [check / 0x100, check % 0x100] + zeroed[12..];
    PairSum(zeroed[..10], 0, 0);
    PairSum(zeroed[..10], check / 0x100, check % 0x100);
    WordSumAppend(zeroed[..10] + [0, 0], zeroed[12..]);
    WordSumAppend(zeroed[..10] + [check / 0x100, check % 0x100], zeroed[12..]);
  }

  class Ipv4Header {
    const rep: array<byte>

    ghost predicate Valid()
    {
      rep.Length == 60
    }

    constructor ()
      ensures Valid() && fresh(rep)
    {
      rep := new byte[60](_ => 0);
    }

    method HeaderChecksum(n: u16)
      requires Valid()
      modifies rep
      ensures rep[..] == old(rep[..])[10 := n / 0x100][11 := n % 0x100]
    {
      rep[10] := n / 0x100;
      rep[11] := n % 0x100;
    }

    /** Only the checksum changes, and the twenty fixed bytes check. */
    method AssignHeaderChecksum()
      requires Valid()
      modifies rep
      ensures rep[..] == old(rep[..])[10 := rep[10]][11 := rep[11]]
      ensures Checks(rep[..20])
    {
      hide Checks, Folded, WordSum;
      HeaderChecksum(0);
      ghost var zeroed := rep[..];
      EmptySum();
      var sum, i := 0, 0;
      while i < 20
        invariant 0 <= i <= 20 && i % 2 == 0 && rep[..] == zeroed
        invariant 0 <= sum == WordSum(zeroed[..i]) <= i * 0xFFFF
      {
        PairSum(zeroed[..i], rep[i], rep[i + 1]);
        assert zeroed[..i + 2] == zeroed[..i] + [rep[i], rep[i + 1]];
        sum := Wrap(sum + (rep[i] as int) * 0x100);
        sum := Wrap(sum + rep[i + 1]);
        i := i + 2;
      }
      var check := Folded(sum);
      HeaderChecksum(check);
      FieldSum(zeroed[..20], rep[..20], check);
      FoldedCompletes(sum);
      ChecksIff(rep[..20]);
    }
  }

  /** Section 3.1 of RFC 791 sums the whole header. With options behind them, the fixed bytes having
      been made to check, the whole header checks exactly when the options alone sum to zero. */
  lemma OptionsIff(header: bytes, options: bytes)
    requires |header| == 20 && Checks(header)
    ensures Checks(header + options) <==> WordSum(options) % 0xFFFF == 0
  {
    hide Checks, WordSum;
    ChecksIff(header);
    ChecksIff(header + options);
    WordSumAppend(header, options);
    Multiples(WordSum(header), WordSum(options), 0);
  }
}
