/** The Internet checksum of 44_high-load_server/multyproc_pool/arc/sample_raw_udp_checksum/raw_udp.c,
    against section 1 of RFC 1071.  Words are read in the little-endian order of the machine; a `long`
    has 64 bits, so the running sum never overflows for any `int` byte count. */
module Checksum {

  type Byte = b: nat | b < 0x100
  type Word = w: nat | w < 0x1_0000

  function Pair(lo: Byte, hi: Byte): Word {
    var h: int := hi;
    h * 256 + lo
  }

  /** The 16-bit words of a buffer; an odd last byte is padded with a zero byte. */
  function Words(b: seq<Byte>): seq<Word> {
    if b == [] then []
    else if |b| == 1 then [b[0]]
    else [Pair(b[0], b[1])] + Words(b[2..])
  }

  function Total(ws: seq<Word>): nat {
    if ws == [] then 0 else ws[0] + Total(ws[1..])
  }

  // ---------------------------------------------------------------------------------------------
  // What the code computes
  // ---------------------------------------------------------------------------------------------

  /** The two folds and the complement, truncated to an unsigned short. */
  function Fold(sum: nat): Word {
    var once := sum / 0x1_0000 + sum % 0x1_0000;
    var twice := once + once / 0x1_0000;
    (-1 - twice) % 0x1_0000
  }

  function Csum(b: seq<Byte>): Word {
    Fold(Total(Words(b)))
  }

  lemma TwoBytes(b: seq<Byte>, i: nat)
    requires i + 2 <= |b|
    ensures Total(Words(b[i..])) == Pair(b[i], b[i + 1]) + Total(Words(b[i + 2..]))
  {
    assert b[i..][2..] == b[i + 2..];
    assert Words(b[i..])[1..] == Words(b[i + 2..]);
  }

  lemma LastByte(b: seq<Byte>, i: nat)
    requires |b| - 1 <= i <= |b|
    ensures Total(Words(b[i..])) == if i < |b| then b[i] else 0
  {
    if i < |b| {
      assert Words(b[i..])[1..] == [];
    }
  }

  /** `csum`; a negative count reads nothing. */
  method ComputeCsum(buf: array<Byte>, nbytes: int) returns (answer: Word)
    requires nbytes <= buf.Length
    ensures answer == Csum(buf[..if nbytes < 0 then 0 else nbytes])
  {
    hide Words, Total;
    ghost var all := buf[..if nbytes < 0 then 0 else nbytes];
    var sum: nat := 0;
    var ptr: nat := 0;
    var left := nbytes;
    assert all[0..] == all;
    while left > 1
      invariant nbytes >= 0 ==> 0 <= left && ptr + left == |all|
      invariant nbytes < 0 ==> left == nbytes && ptr == 0 == |all|
      invariant sum + Total(Words(all[ptr..])) == Total(Words(all))
    {
      TwoBytes(all, ptr);
      sum := sum + Pair(buf[ptr], buf[ptr + 1]);
      ptr := ptr + 2;
      left := left - 2;
    }
    LastByte(all, ptr);
    if left == 1 {
      sum := sum + buf[ptr];
    }
    sum := sum / 0x1_0000 + sum % 0x1_0000;
    sum := sum + sum / 0x1_0000;
    answer := (-1 - sum) % 0x1_0000;
  }

  // ---------------------------------------------------------------------------------------------
  // What RFC 1071 asks for
  // ---------------------------------------------------------------------------------------------

  /** Ones'-complement addition: the carry out of 16 bits comes back in at the low end. */
  function Plus(a: Word, b: Word): Word {
    if a + b < 0x1_0000 then a + b else a + b - 0xFFFF
  }

  function OnesSum(ws: seq<Word>): Word {
    if ws == [] then 0 else Plus(OnesSum(ws[..|ws| - 1]), ws[|ws| - 1])
  }

  function Complement(w: Word): Word {
    0xFFFF - w
  }

  /** The checksum of section 1 of RFC 1071. */
  function Rfc1071(b: seq<Byte>): Word {
    Complement(OnesSum(Words(b)))
  }

  /** The ones'-complement residue of an ordinary sum. */
  function Residue(n: nat): Word {
    if n == 0 then 0 else (n - 1) % 0xFFFF + 1
  }

  lemma ResidueUnique(n: nat, x: Word, k: int)
    requires n >= 1 && x >= 1 && n == x + 0xFFFF * k
    ensures Residue(n) == x
  {
  }

  lemma {:induction false} TotalAppend(a: seq<Word>, b: seq<Word>)
    ensures Total(a + b) == Total(a) + Total(b)
  {
    if a == [] {
      assert a + b == b;
    } else {
      assert (a + b)[1..] == a[1..] + b;
      TotalAppend(a[1..], b);
    }
  }

  lemma PlusResidue(n: nat, w: Word)
    ensures Plus(Residue(n), w) == Residue(n + w)
  {
  }

  /** Adding with end-around carry is adding first and reducing once. */
  lemma {:induction false} OnesSumIsResidue(ws: seq<Word>)
    ensures OnesSum(ws) == Residue(Total(ws))
  {
    if ws == [] {
    } else {
      var front, last := ws[..|ws| - 1], ws[|ws| - 1];
      OnesSumIsResidue(front);
      assert ws == front + [last];
      TotalAppend(front, [last]);
      PlusResidue(Total(front), last);
    }
  }

  // ---------------------------------------------------------------------------------------------
  // When the two folds are enough
  // ---------------------------------------------------------------------------------------------

  /** Below 2^47, which no `int` byte count reaches, two folds lose no carry exactly when the second one
      produces none. */
  lemma FoldExact(sum: nat)
    requires sum < 0x8000_0000_0000
    ensures var once := sum / 0x1_0000 + sum % 0x1_0000;
            Fold(sum) == Complement(Residue(sum)) <==> once % 0x1_0000 + once / 0x1_0000 < 0x1_0000
  {
    var once := sum / 0x1_0000 + sum % 0x1_0000;
    var kept := once % 0x1_0000 + once / 0x1_0000;
    if sum > 0 {
      var k := sum / 0x1_0000 + once / 0x1_0000;
      assert sum == kept + 0xFFFF * k;
      if kept < 0x1_0000 {
        ResidueUnique(sum, kept, k);
      } else {
        ResidueUnique(sum, kept - 0xFFFF, k + 1);
      }
    }
  }

  /** Sums up to 2^32 + 65534 always fold right, and the next one does not. */
  lemma FoldBound(sum: nat)
    requires sum <= 0x1_0000_FFFF
    ensures Fold(sum) == Complement(Residue(sum)) <==> sum < 0x1_0000_FFFF
  {
    FoldExact(sum);
  }

  lemma {:induction false} WordsAppend(a: seq<Byte>, b: seq<Byte>)
    requires |a| % 2 == 0
    ensures Words(a + b) == Words(a) + Words(b)
  {
    if a == [] {
      assert a + b == b;
      assert Words(a) + Words(b) == Words(b);
    } else {
      assert (a + b)[2..] == a[2..] + b;
      WordsAppend(a[2..], b);
      assert [Pair(a[0], a[1])] + Words(a[2..]) + Words(b) == [Pair(a[0], a[1])] + (Words(a[2..]) + Words(b));
    }
  }

  /** The largest sum of a given length, and a buffer that reaches it. */
  lemma {:induction false} TotalBound(b: seq<Byte>)
    ensures Total(Words(b)) <= 0xFFFF * (|b| / 2) + 0xFF * (|b| % 2)
  {
    if |b| >= 2 {
      TotalBound(b[2..]);
    } else if |b| == 1 {
      assert Words(b)[1..] == [];
    }
  }

  function Repeat(x: Byte, n: nat): (b: seq<Byte>)
    ensures |b| == n
  {
    if n == 0 then [] else [x] + Repeat(x, n - 1)
  }

  lemma OneMoreTime(p: nat, n: nat)
    requires n > 0
    ensures p + p * (n - 1) == p * n
  {
  }

  lemma TwoMore(x: Byte, m: nat)
    ensures Total(Words(Repeat(x, m + 2))) == Pair(x, x) + Total(Words(Repeat(x, m)))
  {
    var longer := Repeat(x, m + 2);
    assert longer == [x] + Repeat(x, m + 1) && Repeat(x, m + 1) == [x] + Repeat(x, m);
    assert longer[2..] == Repeat(x, m);
    assert longer[0..] == longer;
    TwoBytes(longer, 0);
  }

  lemma {:induction false} TotalRepeat(x: Byte, n: nat)
    ensures Total(Words(Repeat(x, 2 * n))) == Pair(x, x) * n
  {
    if n == 0 {
    } else {
      TotalRepeat(x, n - 1);
      TwoMore(x, 2 * (n - 1));
      OneMoreTime(Pair(x, x), n);
    }
  }

  /** `k` words of ones, then the byte one, then zeros. */
  function Overlong(k: nat, n: nat): (b: seq<Byte>)
    requires n > 2 * k
    ensures |b| == n
  {
    Repeat(0xFF, 2 * k) + ([1] + Repeat(0, n - 2 * k - 1))
  }

  lemma OverlongTotal(k: nat, n: nat)
    requires n > 2 * k
    ensures Total(Words(Overlong(k, n))) == 0xFFFF * k + 1
  {
    var tail := [1] + Repeat(0, n - 2 * k - 1);
    WordsAppend(Repeat(0xFF, 2 * k), tail);
    TotalAppend(Words(Repeat(0xFF, 2 * k)), Words(tail));
    TotalRepeat(0xFF, k);
    if |tail| == 1 {
      assert Words(tail)[1..] == [];
    } else {
      assert tail[2..] == Repeat(0, |tail| - 2);
      ZerosTotal(|tail| - 2);
      assert Words(tail)[1..] == Words(tail[2..]);
    }
  }

  lemma {:induction false} ZerosTotal(n: nat)
    ensures Total(Words(Repeat(0, n))) == 0
  {
    if n >= 2 {
      assert Repeat(0, n) == [0] + ([0] + Repeat(0, n - 2));
      assert Repeat(0, n)[2..] == Repeat(0, n - 2);
      ZerosTotal(n - 2);
    } else if n == 1 {
      assert Repeat(0, 1) == [0];
    }
  }

  /** `csum` is the RFC 1071 checksum of every buffer of a given length exactly up to 131076 bytes. */
  lemma CorrectUpToLength(n: nat)
    ensures (forall b: seq<Byte> :: |b| == n ==> Csum(b) == Rfc1071(b)) <==> n <= 131076
  {
    if n <= 131076 {
      forall b: seq<Byte> | |b| == n ensures Csum(b) == Rfc1071(b) {
        CsumIsRfc1071(b);
      }
    } else {
      var k := 65538;
      var b := Overlong(k, n);
      OverlongTotal(k, n);
      OnesSumIsResidue(Words(b));
      FoldBound(Total(Words(b)));
      assert Csum(b) != Rfc1071(b);
    }
  }

  lemma CsumIsRfc1071(b: seq<Byte>)
    requires |b| <= 131076
    ensures Csum(b) == Rfc1071(b) == Complement(Residue(Total(Words(b))))
  {
    TotalBound(b);
    OnesSumIsResidue(Words(b));
    FoldBound(Total(Words(b)));
  }

  // ---------------------------------------------------------------------------------------------
  // Verifying a buffer that carries its checksum
  // ---------------------------------------------------------------------------------------------

  /** A 16-bit store at an even offset. */
  function Put(b: seq<Byte>, off: nat, w: Word): (r: seq<Byte>)
    requires off + 2 <= |b|
    ensures |r| == |b|
  {
    b[off := w % 256][off + 1 := w / 256]
  }

  /** A store changes the sum by the difference of the words. */
  lemma PutTotal(b: seq<Byte>, off: nat, w: Word)
    requires off + 2 <= |b| && off % 2 == 0
    ensures Total(Words(Put(b, off, w))) + Pair(b[off], b[off + 1]) == Total(Words(b)) + w
  {
    SplitAt(b, off);
    SplitAt(Put(b, off, w), off);
    assert Put(b, off, w)[..off] == b[..off] && Put(b, off, w)[off + 2..] == b[off + 2..];
  }

  lemma SplitAt(b: seq<Byte>, off: nat)
    requires off + 2 <= |b| && off % 2 == 0
    ensures Total(Words(b)) == Total(Words(b[..off])) + Pair(b[off], b[off + 1]) + Total(Words(b[off + 2..]))
  {
    assert b == b[..off] + b[off..];
    WordsAppend(b[..off], b[off..]);
    TotalAppend(Words(b[..off]), Words(b[off..]));
    assert b[off..][2..] == b[off + 2..];
    assert Words(b[off..])[1..] == Words(b[off + 2..]);
  }

  /** A buffer checks out exactly when its words add up to a positive multiple of 65535. */
  lemma ChecksOut(b: seq<Byte>)
    requires |b| <= 131076
    ensures Csum(b) == 0 <==> Total(Words(b)) > 0 && Total(Words(b)) % 0xFFFF == 0
  {
    CsumIsRfc1071(b);
    ResidueFull(Total(Words(b)));
  }

  lemma ResidueFull(n: nat)
    ensures Residue(n) == 0xFFFF <==> n > 0 && n % 0xFFFF == 0
  {
  }

  lemma ResidueComplement(n: nat)
    ensures n + Complement(Residue(n)) > 0 && (n + Complement(Residue(n))) % 0xFFFF == 0
  {
  }

  /** Storing the checksum in a field that was zero makes the whole buffer check out. */
  lemma InsertedChecksumVerifies(b: seq<Byte>, off: nat)
    requires |b| <= 131076 && off + 2 <= |b| && off % 2 == 0
    requires b[off] == 0 && b[off + 1] == 0
    ensures Csum(Put(b, off, Csum(b))) == 0
  {
    var n, c := Total(Words(b)), Csum(b);
    assert c == Complement(Residue(n)) by { CsumIsRfc1071(b); }
    assert Total(Words(Put(b, off, c))) == n + c by { PutTotal(b, off, c); }
    ResidueComplement(n);
    ChecksOut(Put(b, off, c));
  }

  lemma SameResidue(rest: nat, v: Word, w: Word)
    requires (rest + v) % 0xFFFF == 0 && rest + v > 0
    ensures (rest + w) % 0xFFFF == 0 && rest + w > 0
            <==> v == w || (rest > 0 && ((w == 0 && v == 0xFFFF) || (w == 0xFFFF && v == 0)))
  {
  }

  /** In a buffer that checks out, changing one aligned word is noticed, except for the two ones'-complement
      zeros in a buffer that is not all zeros elsewhere. */
  lemma WordErrorDetected(b: seq<Byte>, off: nat, w: Word)
    requires |b| <= 131076 && off + 2 <= |b| && off % 2 == 0 && Csum(b) == 0
    ensures var was, rest := Pair(b[off], b[off + 1]), Total(Words(Put(b, off, 0)));
            Csum(Put(b, off, w)) == 0
            <==> w == was || (rest > 0 && ((w == 0 && was == 0xFFFF) || (w == 0xFFFF && was == 0)))
  {
    hide *;
    var rest, was := Total(Words(Put(b, off, 0))), Pair(b[off], b[off + 1]);
    PutTotal(b, off, 0);
    PutTotal(b, off, w);
    assert Total(Words(b)) == rest + was && Total(Words(Put(b, off, w))) == rest + w;
    ChecksOut(b);
    ChecksOut(Put(b, off, w));
    SameResidue(rest, was, w);
  }

  /** How `main` fills in a checksum field: zero it, sum, store. */
  method InsertChecksum(buf: array<Byte>, off: nat)
    requires off + 2 <= buf.Length <= 131076 && off % 2 == 0
    modifies buf
    ensures forall i :: 0 <= i < buf.Length && i != off && i != off + 1 ==> buf[i] == old(buf[i])
    ensures Csum(buf[..]) == 0
    ensures Pair(buf[off], buf[off + 1]) == Rfc1071(Put(old(buf[..]), off, 0))
  {
    hide Words, Total, Fold, Csum, Rfc1071;
    buf[off], buf[off + 1] := 0, 0;
    ghost var zeroed := buf[..];
    assert zeroed == Put(old(buf[..]), off, 0);
    var answer := ComputeCsum(buf, buf.Length);
    assert buf[..buf.Length] == zeroed;
    buf[off], buf[off + 1] := answer % 256, answer / 256;
    assert buf[..] == Put(zeroed, off, answer);
    InsertedChecksumVerifies(zeroed, off);
    CsumIsRfc1071(zeroed);
  }

  // ---------------------------------------------------------------------------------------------
  // Order and byte order do not matter
  // ---------------------------------------------------------------------------------------------

  lemma TakeOutWords(front: seq<Word>, w: Word, back: seq<Word>)
    ensures multiset(front + ([w] + back)) == multiset(front + back) + multiset{w}
  {
    assert multiset(front + ([w] + back)) == multiset(front) + multiset([w] + back);
    assert multiset([w] + back) == multiset([w]) + multiset(back);
    assert multiset(front + back) == multiset(front) + multiset(back);
  }

  lemma TakeOutTotal(front: seq<Word>, w: Word, back: seq<Word>)
    ensures Total(front + ([w] + back)) == Total(front + back) + w
  {
    TotalAppend(front, [w] + back);
    TotalAppend(front, back);
    assert ([w] + back)[1..] == back;
  }

  lemma TakeOut(ws: seq<Word>, i: nat)
    requires i < |ws|
    ensures multiset(ws) == multiset(ws[..i] + ws[i + 1..]) + multiset{ws[i]}
    ensures Total(ws) == Total(ws[..i] + ws[i + 1..]) + ws[i]
  {
    hide Total;
    assert ws == ws[..i] + ([ws[i]] + ws[i + 1..]);
    TakeOutWords(ws[..i], ws[i], ws[i + 1..]);
    TakeOutTotal(ws[..i], ws[i], ws[i + 1..]);
  }

  lemma Cancel(a: multiset<Word>, b: multiset<Word>, w: Word)
    requires a + multiset{w} == b + multiset{w}
    ensures a == b
  {
    forall x ensures a[x] == b[x] {
      assert (a + multiset{w})[x] == (b + multiset{w})[x];
    }
  }

  lemma {:induction false} TotalOfPermutation(a: seq<Word>, b: seq<Word>)
    requires multiset(a) == multiset(b)
    ensures Total(a) == Total(b)
  {
    if a == [] {
      assert |multiset(b)| == |b|;
    } else {
      hide *;
      assert a[0] in multiset(b);
      var i :| 0 <= i < |b| && b[i] == a[0];
      TakeOut(a, 0);
      TakeOut(b, i);
      Cancel(multiset(a[..0] + a[1..]), multiset(b[..i] + b[i + 1..]), a[0]);
      TotalOfPermutation(a[..0] + a[1..], b[..i] + b[i + 1..]);
    }
  }

  /** Section 2(A) of RFC 1071: the words may be summed in any order. */
  lemma WordOrderIrrelevant(a: seq<Byte>, b: seq<Byte>)
    requires multiset(Words(a)) == multiset(Words(b))
    ensures Csum(a) == Csum(b)
  {
    TotalOfPermutation(Words(a), Words(b));
  }

  function SwapWord(w: Word): Word {
    Pair(w / 256, w % 256)
  }

  function SwapBytes(b: seq<Byte>): (r: seq<Byte>)
    requires |b| % 2 == 0
    ensures |r| == |b|
  {
    if b == [] then [] else [b[1], b[0]] + SwapBytes(b[2..])
  }

  lemma {:induction false} SwapTotal(b: seq<Byte>) returns (k: nat)
    requires |b| % 2 == 0
    ensures 256 * Total(Words(b)) == Total(Words(SwapBytes(b))) + 0xFFFF * k
    ensures Total(Words(b)) == 0 <==> Total(Words(SwapBytes(b))) == 0
  {
    if b == [] {
      k := 0;
    } else {
      k := SwapTotal(b[2..]);
      assert SwapBytes(b)[2..] == SwapBytes(b[2..]);
      k := k + b[1];
    }
  }

  /** Section 2(B) of RFC 1071: swapping the bytes of every word swaps the bytes of the checksum, so that
      summing in the machine's own byte order is sound. */
  lemma ByteOrderIndependent(b: seq<Byte>)
    requires |b| <= 131076 && |b| % 2 == 0
    ensures Csum(SwapBytes(b)) == SwapWord(Csum(b))
  {
    var k := SwapTotal(b);
    var n, m := Total(Words(b)), Total(Words(SwapBytes(b)));
    assert Csum(b) == Complement(Residue(n)) by { CsumIsRfc1071(b); }
    assert Csum(SwapBytes(b)) == Complement(Residue(m)) by { CsumIsRfc1071(SwapBytes(b)); }
    SwapResidue(n, m, k);
    SwapComplement(Residue(n));
  }

  lemma SwapResidue(n: nat, m: nat, k: nat)
    requires 256 * n == m + 0xFFFF * k && (n == 0 <==> m == 0)
    ensures Residue(m) == SwapWord(Residue(n))
  {
    if n > 0 {
      var x := Residue(n);
      var q := (n - 1) / 0xFFFF;
      assert n == x + 0xFFFF * q;
      assert SwapWord(x) == 256 * x - 0xFFFF * (x / 256);
      ResidueUnique(m, SwapWord(x), x / 256 + 256 * q - k);
    }
  }

  lemma BytesOf(w: Word, lo: Byte, hi: Byte)
    requires w == 256 * hi + lo
    ensures w / 256 == hi && w % 256 == lo
  {
  }

  lemma SwapComplement(w: Word)
    ensures SwapWord(Complement(w)) == Complement(SwapWord(w))
  {
    BytesOf(Complement(w), 255 - w % 256, 255 - w / 256);
  }
}
