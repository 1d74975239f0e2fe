/** The Internet checksum of sys/netinet/in_cksum.c over a chain of buffers, and section 2 of RFC 1071,
  which it computes in another order: 32 bits at a time, byte-swapped where the alignment asks for it. */
module Cksum {

  type Byte = b: int | 0 <= b < 256

  /** The byte order of the machine. */
  datatype Order = Little | Big

  /** A machine: its byte order, and whether its long has 64 bits instead of 32. */
  datatype Arch = Arch(order: Order, wide: bool)
  {
    /** REDUCE takes the first two 16-bit parts of a long, which should be its low ones. */
    predicate Sane()
    {
      order == Little || !wide
    }
  }

  /** The sum is kept in 32 bits. */
  type Sum32 = x: nat | x < 0x1_0000_0000

  /** An mbuf: the address of its data and the data. */
  datatype Mbuf = Mbuf(addr: nat, data: seq<Byte>)

  const ONES := 65535

  // ---------------------------------------------------------------- RFC 1071

  /** A 16-bit word in memory. */
  function Word(e: Order, first: Byte, second: Byte): nat
  {
    if e == Little then first + 256 * second else 256 * first + second
  }

  /** The words of a message; an odd byte at the end is padded with zero. */
  function Words(e: Order, bytes: seq<Byte>): seq<nat>
  {
    if bytes == [] then []
    else if |bytes| == 1 then [Word(e, bytes[0], 0)]
    else [Word(e, bytes[0], bytes[1])] + Words(e, bytes[2..])
  }

  /** One's complement addition of 16-bit numbers: the carry is added at the low end. */
  function OnesAdd(a: nat, b: nat): nat
  {
    if a + b > ONES then a + b - ONES else a + b
  }

  function OnesSum(words: seq<nat>): nat
  {
    if words == [] then 0 else OnesAdd(OnesSum(words[..|words| - 1]), words[|words| - 1])
  }

  // ---------------------------------------------------------------- sums up to end-around carries

  /** Numbers with the same one's complement 16-bit value. */
  ghost predicate Same(a: nat, b: nat)
  {
    a % ONES == b % ONES && (a == 0 <==> b == 0)
  }

  /** The 16-bit value of a sum. */
  function Fold(x: nat): (r: nat)
    ensures r <= ONES
  {
    if x == 0 then 0 else (x - 1) % ONES + 1
  }

  lemma FoldSame(a: nat, b: nat)
    ensures Same(Fold(a), a)
    ensures Same(a, b) ==> Fold(a) == Fold(b)
    ensures a <= ONES ==> Fold(a) == a
  {
    FoldIsSame(a);
    FoldUnique(a, b);
    FoldSmall(a);
  }

  lemma FoldIsSame(a: nat)
    ensures Same(Fold(a), a)
  {
    if a > 0 {
      var q := (a - 1) / ONES;
      assert a == Fold(a) + q * ONES;
      ModAdd(Fold(a), q);
    }
  }

  lemma FoldUnique(a: nat, b: nat)
    ensures Same(a, b) ==> Fold(a) == Fold(b)
  {
    if Same(a, b) && a > 0 {
      var k := a / ONES - b / ONES;
      assert a - 1 == b - 1 + k * ONES;
      ModAdd(b - 1, k);
    }
  }

  lemma FoldSmall(a: nat)
    ensures a <= ONES ==> Fold(a) == a
  {
  }

  lemma SameAdd(a: nat, b: nat, c: nat)
    requires Same(a, b)
    ensures Same(a + c, b + c)
  {
    var k := a / ONES - b / ONES;
    assert a + c == b + c + k * ONES;
    ModAdd(b + c, k);
  }

  lemma SameShift(a: nat, b: nat)
    requires Same(a, b)
    ensures Same(256 * a, 256 * b)
  {
    var k := a / ONES - b / ONES;
    assert a - b == k * ONES;
    assert 256 * a == 256 * b + 256 * k * ONES;
    ModAdd(256 * b, 256 * k);
  }

  lemma ModAdd(x: int, k: int)
    ensures (x + k * ONES) % ONES == x % ONES
  {
  }

  /** l_util.s for l_util.l == sum; a 64-bit long is the 32-bit sum with its sign extended. */
  function Parts(arch: Arch, sum: Sum32): (nat, nat)
  {
    if arch.order == Little then (sum % 65536, sum / 65536)
    else if !arch.wide then (sum / 65536, sum % 65536)
    else if sum < 0x8000_0000 then (0, 0) else (ONES, ONES)
  }

  /** REDUCE */
  function Reduce(arch: Arch, sum: Sum32): (r: nat)
    ensures r <= ONES
  {
    OnesAdd(Parts(arch, sum).0, Parts(arch, sum).1)
  }

  lemma ReduceSame(arch: Arch, sum: Sum32)
    ensures arch.Sane() ==> Same(Reduce(arch, sum), sum)
    ensures !arch.Sane() && sum < 0x8000_0000 ==> Reduce(arch, sum) == 0
  {
    if arch.Sane() {
      var h, l := sum / 65536, sum % 65536;
      assert sum == h + l + h * ONES;
      ModAdd(h + l, h);
    }
  }

  // ---------------------------------------------------------------- bytes by their place

  /** What a byte in the first (0) or second (1) place of a word counts. */
  function Weigh(e: Order, place: nat, b: Byte): nat
  {
    if (e == Little) == (place % 2 == 0) then b else 256 * b
  }

  ghost function Sum(e: Order, bytes: seq<Byte>, place: nat): nat
  {
    if bytes == [] then 0 else Weigh(e, place, bytes[0]) + Sum(e, bytes[1..], place + 1)
  }

  lemma {:induction false} SumCat(e: Order, a: seq<Byte>, b: seq<Byte>, place: nat)
    ensures Sum(e, a + b, place) == Sum(e, a, place) + Sum(e, b, place + |a|)
  {
    if a == [] {
      assert a + b == b;
    } else {
      assert (a + b)[1..] == a[1..] + b;
      SumCat(e, a[1..], b, place + 1);
    }
  }

  /** Only the parity of the place matters. */
  lemma {:induction false} SumPlace(e: Order, a: seq<Byte>, p: nat, q: nat)
    requires p % 2 == q % 2
    ensures Sum(e, a, p) == Sum(e, a, q)
  {
    if a != [] {
      SumPlace(e, a[1..], p + 1, q + 1);
    }
  }

  lemma SumOne(e: Order, b: Byte, place: nat)
    ensures Sum(e, [b], place) == Weigh(e, place, b)
  {
  }

  lemma SumTwo(e: Order, a: Byte, b: Byte)
    ensures Sum(e, [a, b], 0) == Word(e, a, b)
  {
    assert [a, b][1..] == [b];
    SumOne(e, b, 1);
    SumPlace(e, [b], 1, 1);
  }

  lemma WeighShift(e: Order, place: nat, b: Byte)
    ensures Same(256 * Weigh(e, place, b), Weigh(e, place + 1, b))
  {
    ModAdd(b, b);
  }

  lemma SameBoth(a: nat, b: nat, c: nat, d: nat)
    requires Same(a, b) && Same(c, d)
    ensures Same(a + c, b + d)
  {
    SameAdd(a, b, c);
    SameAdd(c, d, b);
  }

  /** Shifting a sum by a byte moves every byte to the other place. */
  lemma {:induction false} SumShift(e: Order, a: seq<Byte>, place: nat)
    ensures Same(256 * Sum(e, a, place), Sum(e, a, place + 1))
  {
    if a != [] {
      WeighShift(e, place, a[0]);
      SumShift(e, a[1..], place + 1);
      SameBoth(256 * Weigh(e, place, a[0]), Weigh(e, place + 1, a[0]), 256 * Sum(e, a[1..], place + 1), Sum(e, a[1..], place + 2));
    }
  }

  // ---------------------------------------------------------------- the two definitions agree

  ghost function Total(words: seq<nat>): nat
  {
    if words == [] then 0 else Total(words[..|words| - 1]) + words[|words| - 1]
  }

  lemma {:induction false} TotalFirst(w: nat, words: seq<nat>)
    ensures Total([w] + words) == w + Total(words)
  {
    if words == [] {
      assert [w] + words == [w] && [w][..0] == [];
    } else {
      var n := |words|;
      assert ([w] + words)[..n] == [w] + words[..n - 1];
      TotalFirst(w, words[..n - 1]);
    }
  }

  lemma {:induction false} TotalIsSum(e: Order, bytes: seq<Byte>)
    ensures Total(Words(e, bytes)) == Sum(e, bytes, 0)
    ensures forall k :: 0 <= k < |Words(e, bytes)| ==> Words(e, bytes)[k] <= ONES
  {
    if |bytes| == 1 {
      TotalFirst(Word(e, bytes[0], 0), []);
      assert bytes == [bytes[0]];
      SumOne(e, bytes[0], 0);
      assert [Word(e, bytes[0], 0)] + [] == Words(e, bytes);
    } else if |bytes| > 1 {
      TotalIsSum(e, bytes[2..]);
      TotalFirst(Word(e, bytes[0], bytes[1]), Words(e, bytes[2..]));
      assert bytes == [bytes[0], bytes[1]] + bytes[2..];
      SumCat(e, [bytes[0], bytes[1]], bytes[2..], 0);
      SumPlace(e, bytes[2..], 0, 2);
      SumTwo(e, bytes[0], bytes[1]);
    }
  }

  /** Carries may be added at the end. */
  lemma {:induction false} OnesSumIsFold(words: seq<nat>)
    requires forall k :: 0 <= k < |words| ==> words[k] <= ONES
    ensures OnesSum(words) == Fold(Total(words))
  {
    if words != [] {
      OnesSumIsFold(words[..|words| - 1]);
      FoldAdd(Total(words[..|words| - 1]), words[|words| - 1]);
    }
  }

  lemma FoldAdd(x: nat, w: nat)
    requires w <= ONES
    ensures OnesAdd(Fold(x), w) == Fold(x + w)
  {
    var a := Fold(x) + w;
    FoldSame(x, x);
    SameAdd(Fold(x), x, w);
    FoldSame(a, x + w);
    if a > ONES {
      ModAdd(a - ONES, 1);
      FoldSame(a - ONES, a);
    } else {
      FoldSame(a, a);
    }
  }

  /** The order of the bytes in a word does not matter, but for the order of the bytes in the result. */
  lemma ByteOrderIndependence(bytes: seq<Byte>)
    ensures var little, big := OnesSum(Words(Little, bytes)), OnesSum(Words(Big, bytes));
            big == little % 256 * 256 + little / 256
  {
    TotalIsSum(Little, bytes);
    TotalIsSum(Big, bytes);
    OnesSumIsFold(Words(Little, bytes));
    OnesSumIsFold(Words(Big, bytes));
    Mirror(bytes, 0);
    SumShift(Little, bytes, 0);
    var t := Sum(Little, bytes, 0);
    SwapIsShift(Fold(t));
    FoldSame(t, t);
    SameShift(Fold(t), t);
    FoldSame(256 * Fold(t), 256 * t);
    FoldSame(256 * t, Sum(Little, bytes, 1));
  }

  lemma {:induction false} Mirror(bytes: seq<Byte>, place: nat)
    ensures Sum(Big, bytes, place) == Sum(Little, bytes, place + 1)
  {
    if bytes != [] {
      Mirror(bytes[1..], place + 1);
    }
  }

  lemma SwapIsShift(x: nat)
    requires x <= ONES
    ensures x % 256 * 256 + x / 256 == Fold(256 * x)
  {
    var h, l := x / 256, x % 256;
    assert 256 * x == l * 256 + h + h * ONES;
    ModAdd(l * 256 + h, h);
    FoldSame(256 * x, l * 256 + h);
  }

  lemma Complemented(total: nat)
    ensures Fold(total + (ONES - Fold(total))) == ONES
  {
    FoldSame(total, total);
    SameAdd(Fold(total), total, ONES - Fold(total));
    FoldSame(ONES, total + (ONES - Fold(total)));
    FoldSame(ONES, ONES);
  }

  lemma FieldSum(e: Order, head: seq<Byte>, x: Byte, y: Byte, tail: seq<Byte>)
    requires |head| % 2 == 0
    ensures Sum(e, head + [x, y] + tail, 0) == Sum(e, head, 0) + Word(e, x, y) + Sum(e, tail, 0)
  {
    hide Sum;
    SumCat(e, head + [x, y], tail, 0);
    SumCat(e, head, [x, y], 0);
    SumPlace(e, [x, y], 0, |head|);
    SumPlace(e, tail, 0, |head + [x, y]|);
    SumTwo(e, x, y);
  }

  /** A message into which its checksum is put, which has been computed with a field of zeros, has
      checksum 0 at the receiver. */
  lemma ReceiverSeesOnes(e: Order, head: seq<Byte>, x: Byte, y: Byte, tail: seq<Byte>)
    requires |head| % 2 == 0 && Word(e, x, y) == Checksum(e, head + [0, 0] + tail)
    ensures Checksum(e, head + [x, y] + tail) == 0
  {
    hide Sum, Words, OnesSum, Total, Fold;
    var blank, full := head + [0, 0] + tail, head + [x, y] + tail;
    TotalIsSum(e, blank);
    TotalIsSum(e, full);
    OnesSumIsFold(Words(e, blank));
    OnesSumIsFold(Words(e, full));
    FieldSum(e, head, 0, 0, tail);
    FieldSum(e, head, x, y, tail);
    Complemented(Sum(e, blank, 0));
  }

  // ---------------------------------------------------------------- in_cksum

  predicate Even(n: int)
  {
    n % 2 == 0
  }

  lemma EvenSum(a: int, b: int)
    ensures Even(a) && Even(b) ==> Even(a + b)
    ensures Even(a) ==> !Even(a + 1)
    ensures !Even(a) ==> Even(a + 1)
    ensures Even(0)
  {
  }

  /** *(u_short *)w where w points to byte `i`. */
  function Load(e: Order, data: seq<Byte>, i: nat): nat
    requires i + 2 <= |data|
  {
    Word(e, data[i], data[i + 1])
  }

  lemma LoadSum(e: Order, data: seq<Byte>, i: nat, j: nat)
    requires i <= j && j + 2 <= |data| && Even(j - i)
    ensures Sum(e, data[i..j + 2], 0) == Sum(e, data[i..j], 0) + Load(e, data, j)
  {
    assert data[i..j + 2] == data[i..j] + [data[j], data[j + 1]];
    SumCat(e, data[i..j], [data[j], data[j + 1]], 0);
    SumPlace(e, [data[j], data[j + 1]], 0, j - i);
    SumTwo(e, data[j], data[j + 1]);
  }

  /** Four words of an unrolled loop. */
  lemma FourWords(e: Order, data: seq<Byte>, i: nat, j: nat)
    requires i <= j && j + 8 <= |data| && Even(j - i)
    ensures Sum(e, data[i..j + 8], 0) ==
            Sum(e, data[i..j], 0) + Load(e, data, j) + Load(e, data, j + 2) + Load(e, data, j + 4) + Load(e, data, j + 6)
  {
    LoadSum(e, data, i, j);
    LoadSum(e, data, i, j + 2);
    LoadSum(e, data, i, j + 4);
    LoadSum(e, data, i, j + 6);
  }

  lemma {:induction false} SumBound(e: Order, bytes: seq<Byte>)
    requires |bytes| % 2 == 0
    ensures Sum(e, bytes, 0) <= 32768 * |bytes|
  {
    if bytes != [] {
      assert bytes == [bytes[0], bytes[1]] + bytes[2..];
      SumCat(e, [bytes[0], bytes[1]], bytes[2..], 0);
      SumTwo(e, bytes[0], bytes[1]);
      SumPlace(e, bytes[2..], 0, 2);
      SumBound(e, bytes[2..]);
    }
  }

  /** One turn of the loop that is unrolled 16 times. */
  method SixteenWords(e: Order, data: seq<Byte>, start: nat, i: nat, sum0: Sum32) returns (sum: Sum32)
    requires start <= i && i + 32 <= |data| && Even(i - start) && sum0 >= Sum(e, data[start..i], 0)
    requires sum0 - Sum(e, data[start..i], 0) + Sum(e, data[start..i + 32], 0) < 0x1_0000_0000
    ensures sum - Sum(e, data[start..i + 32], 0) == sum0 - Sum(e, data[start..i], 0)
  {
    hide Word, Load, Sum;
    FourWords(e, data, start, i);
    FourWords(e, data, start, i + 8);
    FourWords(e, data, start, i + 16);
    FourWords(e, data, start, i + 24);
    sum := sum0;
    sum := sum + Load(e, data, i); sum := sum + Load(e, data, i + 2);
    sum := sum + Load(e, data, i + 4); sum := sum + Load(e, data, i + 6);
    sum := sum + Load(e, data, i + 8); sum := sum + Load(e, data, i + 10);
    sum := sum + Load(e, data, i + 12); sum := sum + Load(e, data, i + 14);
    sum := sum + Load(e, data, i + 16); sum := sum + Load(e, data, i + 18);
    sum := sum + Load(e, data, i + 20); sum := sum + Load(e, data, i + 22);
    sum := sum + Load(e, data, i + 24); sum := sum + Load(e, data, i + 26);
    sum := sum + Load(e, data, i + 28); sum := sum + Load(e, data, i + 30);
  }

  /** The unrolled loops: the words of `data` from `start` on, 16 and then 4 at a time. */
  method Unrolled(e: Order, data: seq<Byte>, start: nat, length: nat, sum0: Sum32) returns (sum: Sum32, i: nat, mlen: int)
    requires start + length <= |data| && sum0 + 32768 * length < 0x1_0000_0000
    ensures 0 <= mlen < 8 && i == start + length - mlen && start <= i <= |data| && Even(i - start)
    ensures sum == sum0 + Sum(e, data[start..i], 0)
  {
    hide Word, Load, Sum;
    sum, i, mlen := sum0, start, length;
    SumEmpty(e, data, start);
    mlen := mlen - 32;
    while mlen >= 0
      invariant -32 <= mlen && i == start + length - mlen - 32 && Even(i - start)
      invariant sum == sum0 + Sum(e, data[start..i], 0)
    {
      SumBoundEven(e, data[start..i + 32]);
      sum := SixteenWords(e, data, start, i, sum);
      i := i + 32;
      mlen := mlen - 32;
    }
    mlen := mlen + 32;
    mlen := mlen - 8;
    while mlen >= 0
      invariant -8 <= mlen && i == start + length - mlen - 8 && Even(i - start)
      invariant sum == sum0 + Sum(e, data[start..i], 0)
    {
      FourWords(e, data, start, i);
      SumBoundEven(e, data[start..i + 8]);
      sum := sum + Load(e, data, i); sum := sum + Load(e, data, i + 2);
      sum := sum + Load(e, data, i + 4); sum := sum + Load(e, data, i + 6);
      i := i + 8;
      mlen := mlen - 8;
    }
    mlen := mlen + 8;
  }

  lemma SumEmpty(e: Order, data: seq<Byte>, i: nat)
    requires i <= |data|
    ensures Sum(e, data[i..i], 0) == 0
  {
  }

  /** The loop over the last words; it leaves `mlen` at -1 for an odd byte and at -2 otherwise. */
  method LastWords(e: Order, data: seq<Byte>, start: nat, length: nat, sum0: Sum32) returns (sum: Sum32, i: nat, mlen: int)
    requires start + length <= |data| && sum0 + 32768 * length < 0x1_0000_0000
    ensures mlen == if length % 2 == 1 then -1 else -2
    ensures i == start + length - (mlen + 2) && Even(i - start) && start <= i <= |data|
    ensures sum == sum0 + Sum(e, data[start..i], 0)
  {
    hide Word, Load, Sum;
    sum, i, mlen := sum0, start, length;
    SumEmpty(e, data, start);
    mlen := mlen - 2;
    while mlen >= 0
      invariant -2 <= mlen && i == start + length - mlen - 2 && Even(i - start)
      invariant sum == sum0 + Sum(e, data[start..i], 0)
    {
      LoadSum(e, data, start, i);
      SumBoundEven(e, data[start..i + 2]);
      sum := sum + Load(e, data, i);
      i := i + 2;
      mlen := mlen - 2;
    }
  }

  const LIMIT := 0x100_0000

  /** A sum that REDUCE can take; without sane longs it never has its highest bit set. */
  predicate Fit(arch: Arch, sum: nat)
  {
    sum < if arch.Sane() then 0x1_0000_0000 else 0x8000_0000
  }

  /** What a shifted sum can add. */
  function Slack(arch: Arch): nat
  {
    if arch.Sane() then LIMIT else 0
  }

  /** Equal as one's complement sums, if the machine has sane longs. */
  ghost predicate Agree(arch: Arch, a: nat, b: nat)
  {
    arch.Sane() ==> Same(a, b)
  }

  lemma AgreeAdd(arch: Arch, a: nat, b: nat, c: nat)
    requires Agree(arch, a, b)
    ensures Agree(arch, a + c, b + c)
  {
    if arch.Sane() {
      SameAdd(a, b, c);
    }
  }

  lemma AgreeTrans(arch: Arch, a: nat, b: nat, c: nat)
    requires Agree(arch, a, b) && Agree(arch, b, c)
    ensures Agree(arch, a, c)
  {
  }

  lemma AgreeShift(arch: Arch, a: nat, b: nat)
    requires Agree(arch, a, b)
    ensures Agree(arch, 256 * a, 256 * b)
  {
    if arch.Sane() {
      SameShift(a, b);
    }
  }

  lemma Reduced(arch: Arch, sum: Sum32)
    requires Fit(arch, sum)
    ensures Agree(arch, Reduce(arch, sum), sum) && 256 * Reduce(arch, sum) <= Slack(arch) && Reduce(arch, sum) <= Slack(arch)
  {
    ReduceSame(arch, sum);
  }

  /** Between two buffers: `done` has been summed, but for a byte `c0` that waits for the second byte of
      its word. */
  ghost predicate Good(arch: Arch, sum: nat, mlen: int, c0: Byte, done: seq<Byte>)
  {
    && (mlen == -1 <==> !Even(|done|))
    && sum + (if mlen == -1 then 32768 else 0) <= Slack(arch) + 32768 * |done|
    && Agree(arch, sum + (if mlen == -1 then Weigh(arch.order, 0, c0) else 0), Sum(arch.order, done, 0))
  }

  /** The value that the sum stands for inside a buffer. */
  ghost function Meant(e: Order, swapped: bool, done: seq<Byte>, words: seq<Byte>): nat
  {
    (if swapped then 256 * Sum(e, done, 0) else Sum(e, done, 0)) + Sum(e, words, 0)
  }

  /** Inside a buffer: `words` have been added to the sum of `done`, which is shifted by a byte if the
      words are swapped. */
  ghost predicate Within(arch: Arch, sum: nat, swapped: bool, done: seq<Byte>, words: seq<Byte>)
  {
    && Even(|done|) && Even(|words|) && sum <= Slack(arch) + 32768 * (|done| + |words|)
    && Agree(arch, sum, Meant(arch.order, swapped, done, words))
  }

  lemma Fits(arch: Arch, sum: nat, swapped: bool, done: seq<Byte>, words: seq<Byte>, n: nat)
    requires Within(arch, sum, swapped, done, words) && |done| + |words| + n <= 65535
    ensures Fit(arch, sum) && sum + 32768 * n < 0x1_0000_0000
  {
  }

  lemma GoodFits(arch: Arch, sum: nat, mlen: int, c0: Byte, done: seq<Byte>)
    requires Good(arch, sum, mlen, c0, done) && |done| <= 65535
    ensures sum < 0x1_0000_0000
  {
  }

  lemma SumNothing(e: Order)
    ensures Sum(e, [], 0) == 0
  {
  }

  lemma Begin(arch: Arch, sum: nat, mlen: int, c0: Byte, done: seq<Byte>)
    requires Good(arch, sum, mlen, c0, done) && mlen != -1
    ensures Within(arch, sum, false, done, [])
  {
    hide Agree;
    SumNothing(arch.order);
  }

  /** The byte that completes a word that spans two buffers. */
  lemma Complete(arch: Arch, sum: nat, c0: Byte, done: seq<Byte>, b: Byte)
    requires Good(arch, sum, -1, c0, done)
    ensures Within(arch, sum + Word(arch.order, c0, b), false, done + [b], [])
  {
    hide Agree, Sum;
    SumNothing(arch.order);
    SumCat(arch.order, done, [b], 0);
    SumOne(arch.order, b, |done|);
    AgreeAdd(arch, sum + Weigh(arch.order, 0, c0), Sum(arch.order, done, 0), Weigh(arch.order, 1, b));
  }

  lemma Shift(arch: Arch, sum: Sum32, done: seq<Byte>)
    requires Within(arch, sum, false, done, []) && Fit(arch, sum)
    ensures Within(arch, 256 * Reduce(arch, sum), true, done, [])
  {
    hide Agree, Sum, Reduce, Slack;
    SumNothing(arch.order);
    Reduced(arch, sum);
    AgreeTrans(arch, Reduce(arch, sum), sum, Sum(arch.order, done, 0));
    AgreeShift(arch, Reduce(arch, sum), Sum(arch.order, done, 0));
  }

  lemma MeantMore(e: Order, swapped: bool, done: seq<Byte>, words: seq<Byte>, more: seq<Byte>)
    requires Even(|words|)
    ensures Meant(e, swapped, done, words + more) == Meant(e, swapped, done, words) + Sum(e, more, 0)
  {
    hide Sum;
    SumCat(e, words, more, 0);
    SumPlace(e, more, 0, |words|);
  }

  lemma SumBoundEven(e: Order, bytes: seq<Byte>)
    requires Even(|bytes|)
    ensures Sum(e, bytes, 0) <= 32768 * |bytes|
  {
    hide Sum;
    SumBound(e, bytes);
  }

  lemma AddWords(arch: Arch, sum: nat, swapped: bool, done: seq<Byte>, words: seq<Byte>, more: seq<Byte>)
    requires Within(arch, sum, swapped, done, words) && Even(|more|)
    ensures Within(arch, sum + Sum(arch.order, more, 0), swapped, done, words + more)
  {
    hide Agree, Slack, Sum, Meant, Even;
    EvenSum(|words|, |more|);
    SumBoundEven(arch.order, more);
    MeantMore(arch.order, swapped, done, words, more);
    AgreeAdd(arch, sum, Meant(arch.order, swapped, done, words), Sum(arch.order, more, 0));
  }

  lemma ReduceWithin(arch: Arch, sum: Sum32, swapped: bool, done: seq<Byte>, words: seq<Byte>)
    requires Within(arch, sum, swapped, done, words) && Fit(arch, sum)
    ensures Within(arch, Reduce(arch, sum), swapped, done, words)
  {
    hide Agree, Sum, Reduce, Slack;
    Reduced(arch, sum);
    AgreeTrans(arch, Reduce(arch, sum), sum, Meant(arch.order, swapped, done, words));
  }

  /** The end of a buffer whose words were not swapped. */
  lemma FinishPlain(arch: Arch, sum: nat, done: seq<Byte>, words: seq<Byte>, mlen: int, c0: Byte)
    requires Within(arch, sum, false, done, words) && mlen != -1
    ensures Good(arch, sum, mlen, c0, done + words)
  {
    hide Agree, Sum;
    SumCat(arch.order, done, words, 0);
    SumPlace(arch.order, words, 0, |done|);
  }

  lemma FinishPlainOdd(arch: Arch, sum: nat, done: seq<Byte>, words: seq<Byte>, b: Byte)
    requires Within(arch, sum, false, done, words)
    ensures Good(arch, sum, -1, b, done + words + [b])
  {
    hide Agree, Sum;
    SumCat(arch.order, done, words, 0);
    SumPlace(arch.order, words, 0, |done|);
    SumCat(arch.order, done + words, [b], 0);
    SumOne(arch.order, b, |done + words|);
    AgreeAdd(arch, sum, Sum(arch.order, done, 0) + Sum(arch.order, words, 0), Weigh(arch.order, 0, b));
  }

  lemma SameTrans(a: nat, b: nat, c: nat)
    requires Same(a, b) && Same(b, c)
    ensures Same(a, c)
  {
  }

  /** Shifted back by another byte, swapped words count in the places they have in the message. */
  lemma Unshift(e: Order, x: nat, done: seq<Byte>, words: seq<Byte>)
    requires Same(x, Meant(e, true, done, words))
    ensures Same(256 * x, Sum(e, done, 0) + Sum(e, words, 1))
  {
    hide Same, Sum;
    var s, w := Sum(e, done, 0), Sum(e, words, 0);
    SameShift(x, 256 * s + w);
    SumShift(e, words, 0);
    SumShift(e, done, 0);
    SameShift(256 * s, Sum(e, done, 1));
    SumShift(e, done, 1);
    SameTrans(256 * (256 * s), 256 * Sum(e, done, 1), Sum(e, done, 2));
    SumPlace(e, done, 0, 2);
    SameBoth(256 * (256 * s), s, 256 * w, Sum(e, words, 1));
    SameTrans(256 * x, 256 * (256 * s + w), s + Sum(e, words, 1));
  }

  lemma Unswap(arch: Arch, sum: Sum32, done: seq<Byte>, words: seq<Byte>)
    requires Within(arch, sum, true, done, words) && Fit(arch, sum)
    ensures Agree(arch, 256 * Reduce(arch, sum), Sum(arch.order, done, 0) + Sum(arch.order, words, 1))
    ensures 256 * Reduce(arch, sum) <= Slack(arch)
  {
    hide Same, Sum, Reduce, Slack, Meant;
    Reduced(arch, sum);
    if arch.Sane() {
      SameTrans(Reduce(arch, sum), sum, Meant(arch.order, true, done, words));
      Unshift(arch.order, Reduce(arch, sum), done, words);
    }
  }

  /** The message with the byte before the swapped words. */
  lemma SwappedSum(e: Order, done: seq<Byte>, c0: Byte, words: seq<Byte>)
    requires Even(|done|)
    ensures Sum(e, done + [c0] + words, 0) == Sum(e, done, 0) + Weigh(e, 0, c0) + Sum(e, words, 1)
  {
    hide Sum;
    SumCat(e, done + [c0], words, 0);
    SumCat(e, done, [c0], 0);
    SumOne(e, c0, |done|);
    SumPlace(e, words, 1, |done + [c0]|);
  }

  lemma FinishSwapped(arch: Arch, sum: Sum32, done: seq<Byte>, c0: Byte, words: seq<Byte>)
    requires Within(arch, sum, true, done, words) && Fit(arch, sum)
    ensures Good(arch, 256 * Reduce(arch, sum), -1, c0, done + [c0] + words)
  {
    hide Agree, Sum, Reduce;
    Unswap(arch, sum, done, words);
    SwappedSum(arch.order, done, c0, words);
    AgreeAdd(arch, 256 * Reduce(arch, sum), Sum(arch.order, done, 0) + Sum(arch.order, words, 1), Weigh(arch.order, 0, c0));
  }

  lemma FinishSwappedOdd(arch: Arch, sum: Sum32, done: seq<Byte>, c0: Byte, words: seq<Byte>, b: Byte)
    requires Within(arch, sum, true, done, words) && Fit(arch, sum)
    ensures Good(arch, 256 * Reduce(arch, sum) + Word(arch.order, c0, b), 0, c0, done + [c0] + words + [b])
  {
    hide Agree, Sum, Reduce;
    Unswap(arch, sum, done, words);
    SwappedSum(arch.order, done, c0, words);
    SumCat(arch.order, done + [c0] + words, [b], 0);
    SumOne(arch.order, b, |done + [c0] + words|);
    AgreeAdd(arch, 256 * Reduce(arch, sum), Sum(arch.order, done, 0) + Sum(arch.order, words, 1), Word(arch.order, c0, b));
  }

  lemma Slices(data: seq<Byte>, a: nat, b: nat, c: nat)
    requires a <= b <= c <= |data|
    ensures data[a..b] + data[b..c] == data[a..c] && |data[a..c]| == c - a
  {
  }

  /** The bytes of a buffer up to `i`, after the first one at an odd address. */
  lemma AfterFirst(data: seq<Byte>, start: nat, i: nat, done: seq<Byte>)
    requires start < i <= |data|
    ensures done + [data[start]] + data[start + 1..i] == done + data[start..i]
  {
    assert data[start..i] == [data[start]] + data[start + 1..i];
  }

  lemma WithLast(data: seq<Byte>, start: nat, i: nat, done: seq<Byte>)
    requires start <= i < |data|
    ensures done + data[start..i] + [data[i]] == done + data[start..i + 1]
  {
    assert data[start..i + 1] == data[start..i] + [data[i]];
  }

  /** The words of `length` bytes of a buffer from `first` on. `mlen` is 0 if they are whole and not
      swapped and no other loop was needed; otherwise it says whether a byte is left over (-1). */
  method AddAll(arch: Arch, data: seq<Byte>, first: nat, length: nat, swapped: bool, sum0: Sum32, ghost done: seq<Byte>)
    returns (sum: Sum32, i: nat, mlen: int)
    requires first + length <= |data| && |done| + length <= 65535 && Within(arch, sum0, swapped, done, [])
    ensures first <= i <= first + length && Within(arch, sum, swapped, done, data[first..i])
    ensures if mlen == 0 then !swapped && i == first + length
            else (mlen == -1 && i + 1 == first + length) || (mlen == -2 && i == first + length)
  {
    hide Word, Sum, Reduce, Agree, Within, Even;
    Fits(arch, sum0, swapped, done, [], length);
    sum, i, mlen := Unrolled(arch.order, data, first, length, sum0);
    AddWords(arch, sum0, swapped, done, [], data[first..i]);
    assert [] + data[first..i] == data[first..i];
    if mlen == 0 && !swapped {
      return;
    }
    Fits(arch, sum, swapped, done, data[first..i], 0);
    ReduceWithin(arch, sum, swapped, done, data[first..i]);
    sum := Reduce(arch, sum);
    Fits(arch, sum, swapped, done, data[first..i], mlen);
    ghost var was, mid := sum, i;
    sum, i, mlen := LastWords(arch.order, data, i, mlen, sum);
    AddWords(arch, was, swapped, done, data[first..mid], data[mid..i]);
    Slices(data, first, mid, i);
  }

  /** The end of a buffer whose words were swapped: `i` is the end of the words after the first byte. */
  method Unswapped(arch: Arch, data: seq<Byte>, start: nat, i: nat, stop: nat, sum0: Sum32, c0: Byte, ghost done: seq<Byte>)
    returns (sum: Sum32, mlen: int)
    requires start < i <= stop <= |data| && c0 == data[start] && (i == stop || i + 1 == stop)
    requires Within(arch, sum0, true, done, data[start + 1..i]) && |done| + stop - start <= 65535
    ensures Good(arch, sum, mlen, c0, done + data[start..stop])
  {
    hide Word, Sum, Reduce, Agree, Within, Good, Even, Fit, Slack;
    ghost var words := data[start + 1..i];
    Fits(arch, sum0, true, done, words, 0);
    AfterFirst(data, start, i, done);
    FitReduce(arch, sum0);
    sum := Reduce(arch, sum0);
    sum := sum * 256;
    if i < stop {
      FinishSwappedOdd(arch, sum0, done, c0, words, data[i]);
      WithLast(data, start, i, done);
      GoodFits(arch, sum + Word(arch.order, c0, data[i]), 0, c0, done + data[start..stop]);
      sum := sum + Word(arch.order, c0, data[i]);
      mlen := 0;
    } else {
      FinishSwapped(arch, sum0, done, c0, words);
      mlen := -1;
    }
  }

  lemma FitReduce(arch: Arch, sum: nat)
    requires Fit(arch, sum)
    ensures sum < 0x1_0000_0000
  {
  }

  /** The part of the loop of in_cksum after a word that spans two buffers: `length` bytes of `data`
      from `start` on, of which the first is at an odd address if `odd`. */
  method Body(arch: Arch, data: seq<Byte>, start: nat, length: nat, odd: bool, sum0: Sum32, c00: Byte, ghost done: seq<Byte>)
    returns (sum: Sum32, mlen: int, c0: Byte)
    requires start + length <= |data| && |done| + length <= 65535 && Within(arch, sum0, false, done, [])
    ensures Good(arch, sum, mlen, c0, done + data[start..start + length])
  {
    hide Word, Sum, Reduce, Agree, Within, Good, Even, Fit, Slack;
    sum, mlen, c0 := sum0, length, c00;
    var i := start;
    if odd && mlen > 0 {
      Fits(arch, sum, false, done, [], 0);
      Shift(arch, sum, done);
      sum := Reduce(arch, sum);
      sum := sum * 256;
      c0 := data[i];
      sum, i, mlen := AddAll(arch, data, i + 1, mlen - 1, true, sum, done);
      sum, mlen := Unswapped(arch, data, start, i, start + length, sum, c0, done);
    } else {
      sum, i, mlen := AddAll(arch, data, i, mlen, false, sum, done);
      if mlen == -1 {
        FinishPlainOdd(arch, sum, done, data[start..i], data[i]);
        WithLast(data, start, i, done);
        c0 := data[i];
      } else {
        FinishPlain(arch, sum, done, data[start..i], mlen, c0);
      }
    }
  }

  /** The bytes of a chain. */
  ghost function Flat(chain: seq<Mbuf>): seq<Byte>
  {
    if chain == [] then [] else chain[0].data + Flat(chain[1..])
  }

  ghost function Take(bytes: seq<Byte>, n: nat): seq<Byte>
  {
    if n <= |bytes| then bytes[..n] else bytes
  }

  /** The checksum of section 2 of RFC 1071. */
  function Checksum(e: Order, bytes: seq<Byte>): int
  {
    ONES - OnesSum(Words(e, bytes))
  }

  ghost predicate AllZero(bytes: seq<Byte>)
  {
    forall k :: 0 <= k < |bytes| ==> bytes[k] == 0
  }

  lemma {:induction false} ZeroSum(e: Order, bytes: seq<Byte>, place: nat)
    ensures Sum(e, bytes, place) == 0 <==> AllZero(bytes)
  {
    if bytes != [] {
      ZeroSum(e, bytes[1..], place + 1);
      assert bytes == [bytes[0]] + bytes[1..];
      assert AllZero(bytes) ==> forall k :: 0 <= k < |bytes[1..]| ==> bytes[1..][k] == bytes[k + 1];
      assert AllZero(bytes[1..]) ==> forall k :: 0 < k < |bytes| ==> bytes[k] == bytes[1..][k - 1];
    }
  }

  /** What is left to sum after one more buffer. */
  lemma TakeNext(done: seq<Byte>, m: Mbuf, rest: seq<Mbuf>, n: nat, k: nat)
    requires k == if n < |m.data| then n else |m.data|
    ensures done + Take(Flat([m] + rest), n) == done + m.data[..k] + Take(Flat(rest), n - k)
  {
    assert ([m] + rest)[1..] == rest;
    assert Flat([m] + rest) == m.data + Flat(rest);
  }

  lemma TakeDone(done: seq<Byte>, chain: seq<Mbuf>, n: nat)
    requires chain == [] || n == 0
    ensures done + Take(Flat(chain), n) == done
  {
  }

  /** in_cksum. On a machine with sane longs it is the complement of the one's complement sum of the first
      `length` bytes of the chain, or of all if there are fewer, whatever the boundaries and addresses of
      the buffers. On other machines it is all ones, which is right for zero bytes only. */
  method InCksum(arch: Arch, chain: seq<Mbuf>, length: nat) returns (r: nat)
    requires length <= 65535
    ensures arch.Sane() ==> r == Checksum(arch.order, Take(Flat(chain), length))
    ensures !arch.Sane() ==> r == ONES
    ensures r == Checksum(arch.order, Take(Flat(chain), length)) <==> arch.Sane() || AllZero(Take(Flat(chain), length))
  {
    hide Word, Sum, Reduce, Good, Within, Checksum, Agree, Fit, AllZero, Flat, Take;
    ghost var bytes, done: seq<Byte> := Take(Flat(chain), length), [];
    assert chain[0..] == chain;
    var sum: Sum32, mlen: int, len: nat, n: nat := 0, 0, length, 0;
    var c0: Byte := 0;
    StartGood(arch, c0);
    while n < |chain| && len > 0
      invariant n <= |chain| && bytes == done + Take(Flat(chain[n..]), len)
      invariant Good(arch, sum, mlen, c0, done) && |done| + len == length
    {
      var m := chain[n];
      assert chain[n..] == [m] + chain[n + 1..];
      ghost var k := if len < |m.data| then len else |m.data|;
      TakeNext(done, m, chain[n + 1..], len, k);
      if |m.data| > 0 {
        sum, mlen, c0, len := Buffer(arch, m, len, sum, mlen, c0, done);
      } else {
        assert done + m.data[..k] == done;
      }
      done := done + m.data[..k];
      n := n + 1;
    }
    TakeDone(done, chain[n..], len);
    if mlen == -1 {
      LastByte(arch, sum, c0, done);
      sum := sum + Word(arch.order, c0, 0);
    } else {
      NoLastByte(arch, sum, mlen, c0, done);
    }
    Result(arch, sum, done);
    sum := Reduce(arch, sum);
    r := ONES - sum;
  }

  /** One buffer with data. */
  method Buffer(arch: Arch, m: Mbuf, len0: nat, sum0: Sum32, mlen0: int, c00: Byte, ghost done: seq<Byte>)
    returns (sum: Sum32, mlen: int, c0: Byte, len: nat)
    requires Good(arch, sum0, mlen0, c00, done) && |done| + len0 <= 65535 && len0 > 0 && |m.data| > 0
    ensures len == if len0 < |m.data| then 0 else len0 - |m.data|
    ensures Good(arch, sum, mlen, c0, done + m.data[..len0 - len])
  {
    hide Word, Sum, Good, Within, Agree;
    ghost var D := done;
    var i := 0;
    sum, mlen, c0, len := sum0, mlen0, c00, len0;
    if mlen == -1 {
      Complete(arch, sum, c0, done, m.data[0]);
      Fits(arch, sum + Word(arch.order, c0, m.data[0]), false, done + [m.data[0]], [], 0);
      sum := sum + Word(arch.order, c0, m.data[0]);
      i := 1;
      mlen := |m.data| - 1;
      len := len - 1;
      D := done + [m.data[0]];
    } else {
      Begin(arch, sum, mlen, c0, done);
      mlen := |m.data|;
    }
    if len < mlen {
      mlen := len;
    }
    len := len - mlen;
    ghost var k := i + mlen;
    sum, mlen, c0 := Body(arch, m.data, i, mlen, (m.addr + i) % 2 == 1, sum, c0, D);
    assert D + m.data[i..k] == done + m.data[..k];
  }

  lemma StartGood(arch: Arch, c0: Byte)
    ensures Good(arch, 0, 0, c0, [])
  {
  }

  lemma LastByte(arch: Arch, sum: nat, c0: Byte, done: seq<Byte>)
    requires Good(arch, sum, -1, c0, done) && |done| <= 65535
    ensures Agree(arch, sum + Word(arch.order, c0, 0), Sum(arch.order, done, 0)) && Fit(arch, sum + Word(arch.order, c0, 0))
    ensures sum + Word(arch.order, c0, 0) < 0x1_0000_0000
  {
    hide Agree, Sum;
  }

  lemma NoLastByte(arch: Arch, sum: nat, mlen: int, c0: Byte, done: seq<Byte>)
    requires Good(arch, sum, mlen, c0, done) && mlen != -1 && |done| <= 65535
    ensures Agree(arch, sum, Sum(arch.order, done, 0)) && Fit(arch, sum)
  {
    hide Agree, Sum;
  }

  lemma Result(arch: Arch, sum: Sum32, bytes: seq<Byte>)
    requires Agree(arch, sum, Sum(arch.order, bytes, 0)) && Fit(arch, sum)
    ensures arch.Sane() ==> ONES - Reduce(arch, sum) == Checksum(arch.order, bytes)
    ensures !arch.Sane() ==> Reduce(arch, sum) == 0 && (Checksum(arch.order, bytes) == ONES <==> AllZero(bytes))
  {
    hide Sum, Reduce, Fold, Words, OnesSum, AllZero;
    ReduceSame(arch, sum);
    TotalIsSum(arch.order, bytes);
    OnesSumIsFold(Words(arch.order, bytes));
    if arch.Sane() {
      SameTrans(Reduce(arch, sum), sum, Sum(arch.order, bytes, 0));
      FoldSame(Reduce(arch, sum), Sum(arch.order, bytes, 0));
    } else {
      ZeroSum(arch.order, bytes, 0);
      FoldZero(Sum(arch.order, bytes, 0));
    }
  }

  lemma FoldZero(x: nat)
    ensures Fold(x) == 0 <==> x == 0
  {
  }
}
