/**
 The proof of work: a count of leading zero bits, what it says about the size of a digest, and how rare solutions
 are.
 */
module ProofOfWork {
  function Pow2(n: nat): nat {
    if n == 0 then 1 else 2 * Pow2(n - 1)
  }

  lemma {:induction false} Pow2Positive(n: nat)
    ensures Pow2(n) > 0
  {
    if n > 0 {
      Pow2Positive(n - 1);
    }
  }

  /** b * p, as a function that the solver does not look into. */
  function Times(b: nat, p: nat): nat { b * p }

  lemma TimesDoubles(b: nat, p: nat)
    ensures Times(2 * b, p) == 2 * Times(b, p)
    ensures Times(1, p) == p
  {}

  lemma Pow2Sum(m: nat, n: nat)
    ensures Pow2(m + n) == Pow2(m) * Pow2(n)
  {
    Pow2Times(m, n);
  }

  lemma {:induction false} Pow2Times(m: nat, n: nat)
    ensures Pow2(m + n) == Times(Pow2(m), Pow2(n))
  {
    hide Times;
    if m == 0 {
      TimesDoubles(1, Pow2(n));
    } else {
      Pow2Times(m - 1, n);
      TimesDoubles(Pow2(m - 1), Pow2(n));
      assert Pow2(m + n) == 2 * Pow2(m - 1 + n);
    }
  }

  lemma {:induction false} Pow2Monotone(m: nat, n: nat)
    requires m <= n
    ensures Pow2(m) <= Pow2(n)
  {
    Pow2Sum(m, n - m);
    Pow2Positive(n - m);
    assert Pow2(m) * Pow2(n - m) >= Pow2(m) * 1;
  }

  lemma BytePowers()
    ensures Pow2(0) == 1 && Pow2(1) == 2 && Pow2(2) == 4 && Pow2(3) == 8 && Pow2(4) == 16
    ensures Pow2(5) == 32 && Pow2(6) == 64 && Pow2(7) == 128 && Pow2(8) == 256
  {
    assert Pow2(4) == 16;
  }

  // ----- Byte strings as big-endian numbers

  function Value(s: seq<bv8>): nat {
    if s == [] then 0 else 256 * Value(s[..|s| - 1]) + (s[|s| - 1] as int)
  }

  /** The byte that denotes x. */
  function ByteOf(x: nat): (b: bv8)
    requires x < 256
    ensures b as int == x
  {
    if x == 0 then 0
    else
      var b := ByteOf(x - 1);
      NextByte(b);
      b + 1
  }

  lemma NextByte(b: bv8)
    requires b as int < 255
    ensures (b + 1) as int == b as int + 1
  {}

  /** The n-byte string that denotes v. */
  function Encode(v: nat, n: nat): (s: seq<bv8>)
    ensures |s| == n
  {
    if n == 0 then [] else Encode(v / 256, n - 1) + [ByteOf(v % 256)]
  }

  lemma Pow2Byte(n: nat)
    requires n > 0
    ensures Pow2(8 * n) == 256 * Pow2(8 * (n - 1))
  {
    Pow2Sum(8, 8 * (n - 1));
    BytePowers();
  }

  lemma {:induction false} ValueBound(s: seq<bv8>)
    ensures Value(s) < Pow2(8 * |s|)
  {
    if s != [] {
      ValueBound(s[..|s| - 1]);
      Pow2Byte(|s|);
    }
  }

  lemma ValueAppend(s: seq<bv8>, b: bv8)
    ensures Value(s + [b]) == 256 * Value(s) + (b as int)
  {
    assert (s + [b])[..|s|] == s;
  }

  lemma {:induction false} ValueOfEncode(v: nat, n: nat)
    requires v < Pow2(8 * n)
    ensures Value(Encode(v, n)) == v
  {
    if n == 0 {
      assert Pow2(0) == 1;
    } else {
      Pow2Byte(n);
      ValueOfEncode(v / 256, n - 1);
      ValueAppend(Encode(v / 256, n - 1), ByteOf(v % 256));
    }
  }

  lemma {:induction false} EncodeOfValue(s: seq<bv8>)
    ensures Encode(Value(s), |s|) == s
  {
    if s != [] {
      var init, last := s[..|s| - 1], s[|s| - 1];
      EncodeOfValue(init);
      assert Value(s) / 256 == Value(init) && Value(s) % 256 == last as int;
      SameByte(ByteOf(last as int), last);
      assert s == init + [last];
    }
  }

  lemma SameByte(a: bv8, b: bv8)
    requires a as int == b as int
    ensures a == b
  {}

  lemma TimesStep(b: nat, p: nat)
    ensures Times(b, 256 * p) == 256 * Times(b, p)
  {}

  lemma {:induction false} ValueHead(s: seq<bv8>)
    requires s != []
    ensures Value(s) == Times(s[0] as int, Pow2(8 * (|s| - 1))) + Value(s[1..])
  {
    hide Pow2;
    hide Value;
    hide Times;
    var n := |s| - 1;
    var init, last := s[..n], s[n];
    assert s == init + [last];
    ValueAppend(init, last);
    if n == 0 {
      ValueEmpty();
      TimesPowZero(s[0] as int);
    } else {
      ValueHead(init);
      Pow2Byte(n);
      assert s[1..] == init[1..] + [last];
      ValueAppend(init[1..], last);
      TimesStep(s[0] as int, Pow2(8 * (n - 1)));
    }
  }

  lemma ValueEmpty()
    ensures Value([]) == 0
  {}

  lemma TimesPowZero(b: nat)
    ensures Times(b, Pow2(0)) == b
  {}

  lemma PowZero()
    ensures Pow2(0) == 1
  {}

  // ----- The count

  /** The number of leading zero bits of a byte string. */
  function LeadingZeros(s: seq<bv8>): nat {
    if s == [] then 0
    else if s[0] == 0 then 8 + LeadingZeros(s[1..])
    else ByteZeros(s[0])
  }

  function ByteZeros(b: bv8): nat {
    if b >= 128 then 0 else if b >= 64 then 1 else if b >= 32 then 2 else if b >= 16 then 3
    else if b >= 8 then 4 else if b >= 4 then 5 else if b >= 2 then 6 else if b >= 1 then 7 else 8
  }

  lemma BitTest(b: bv8, i: nat)
    requires i < 8 && (i < 7 ==> b < 1 << (i + 1))
    ensures b & (1 << i) == 0 <==> b < 1 << i
  {}

  lemma ByteZerosAt(b: bv8, i: nat)
    requires i < 8 && (i < 7 ==> b < 1 << (i + 1)) && b >= 1 << i
    ensures ByteZeros(b) == 7 - i
  {}

  method CountLeadingZeroBits(hash: seq<bv8>) returns (count: nat)
    ensures count == LeadingZeros(hash)
  {
    count := 0;
    for k := 0 to |hash|
      invariant count + LeadingZeros(hash[k..]) == LeadingZeros(hash)
    {
      var b := hash[k];
      assert hash[k..][0] == b && hash[k..][1..] == hash[k + 1..];
      if b == 0 {
        count := count + 8;
        continue;
      }
      var i := 7;
      while i >= 0
        invariant -1 <= i <= 7
        invariant count + LeadingZeros(hash[k..]) == LeadingZeros(hash) + 7 - i
        invariant 0 <= i < 7 ==> b < 1 << (i + 1)
        invariant i < 0 ==> b < 1
      {
        BitTest(b, i);
        if b & (1 << i) == 0 {
          count := count + 1;
        } else {
          ByteZerosAt(b, i);
          return;
        }
        i := i - 1;
      }
    }
    assert hash[|hash|..] == [];
  }

  // ----- What the count says about the number

  /** `k` is the number of leading zero bits of an n-byte number. */
  ghost predicate ZeroPrefix(n: nat, value: nat, k: nat) {
    k <= 8 * n && value < Pow2(8 * n - k) && (k < 8 * n ==> value >= Pow2(8 * n - k - 1))
  }

  lemma ByteMagnitude(b: bv8)
    requires b != 0
    ensures ByteZeros(b) < 8 && Pow2(7 - ByteZeros(b)) <= b as int < Pow2(8 - ByteZeros(b))
  {
    BytePowers();
    ByteBounds(b);
  }

  /** The comparisons of ByteZeros, on the byte as a number. */
  lemma ByteBounds(b: bv8)
    requires b != 0
    ensures var v := b as int;
            ByteZeros(b) == if v >= 128 then 0 else if v >= 64 then 1 else if v >= 32 then 2 else if v >= 16 then 3
                            else if v >= 8 then 4 else if v >= 4 then 5 else if v >= 2 then 6 else 7
    ensures 1 <= b as int < 256
  {}

  lemma ScaleBounds(lo: nat, b: nat, hi: nat, p: nat, rest: nat)
    requires lo <= b < hi && rest < p
    ensures lo * p <= b * p + rest < hi * p
  {
    assert (b + 1) * p <= hi * p;
    assert lo * p <= b * p;
  }

  /** The count of the loop is exactly the number of leading zero bits of the big-endian value. */
  lemma {:induction false} CountIsExact(s: seq<bv8>)
    ensures ZeroPrefix(|s|, Value(s), LeadingZeros(s))
  {
    hide Pow2;
    hide Value;
    if s == [] {
      PowZero();
      ValueEmpty();
    } else {
      var m := 8 * (|s| - 1);
      ValueHead(s);
      ValueBound(s[1..]);
      if s[0] == 0 {
        CountIsExact(s[1..]);
      } else {
        var z := ByteZeros(s[0]);
        ByteMagnitude(s[0]);
        ScaleBounds(Pow2(7 - z), s[0] as int, Pow2(8 - z), Pow2(m), Value(s[1..]));
        Pow2Sum(7 - z, m);
        Pow2Sum(8 - z, m);
      }
    }
  }

  /** No other number fits that description. */
  lemma CountIsUnique(n: nat, value: nat, j: nat, k: nat)
    requires ZeroPrefix(n, value, j) && ZeroPrefix(n, value, k)
    ensures j == k
  {
    if j < k {
      Pow2Monotone(8 * n - k, 8 * n - j - 1);
    } else if k < j {
      Pow2Monotone(8 * n - j, 8 * n - k - 1);
    }
  }

  lemma ThresholdMeaning(s: seq<bv8>, d: nat)
    requires d <= 8 * |s|
    ensures LeadingZeros(s) >= d <==> Value(s) < Pow2(8 * |s| - d)
  {
    CountIsExact(s);
    var k := LeadingZeros(s);
    if k >= d {
      Pow2Monotone(8 * |s| - k, 8 * |s| - d);
    } else {
      Pow2Monotone(8 * |s| - d, 8 * |s| - k - 1);
    }
  }

  // ----- Verification and search

  // The SHA-256 digest of "challenge:nonce" is uninterpreted.
  type Digest = s: seq<bv8> | |s| == 32 witness seq(32, i => 0)

  type Hash = (string, nat) -> Digest

  predicate VerifyPoW(hash: Hash, challenge: string, nonce: nat, difficulty: int) {
    LeadingZeros(hash(challenge, nonce)) >= difficulty
  }

  /** A nonce is accepted exactly if the digest, as a 256-bit number, lies below 2^(256 - difficulty). */
  lemma AcceptanceMeaning(hash: Hash, challenge: string, nonce: nat, difficulty: int)
    ensures 0 <= difficulty <= 256 ==>
              (VerifyPoW(hash, challenge, nonce, difficulty) <==>
                 Value(hash(challenge, nonce)) < Pow2(256 - difficulty))
    ensures difficulty <= 0 ==> VerifyPoW(hash, challenge, nonce, difficulty)
    ensures difficulty > 256 ==> !VerifyPoW(hash, challenge, nonce, difficulty)
  {
    hide Pow2;
    CountIsExact(hash(challenge, nonce));
    if 0 <= difficulty <= 256 {
      ThresholdMeaning(hash(challenge, nonce), difficulty);
    }
  }

  const SEARCH_LIMIT: nat := 0x4000_0000

  method Verify(hash: Hash, challenge: string, nonce: nat, difficulty: int) returns (ok: bool)
    ensures ok == VerifyPoW(hash, challenge, nonce, difficulty)
  {
    var count := CountLeadingZeroBits(hash(challenge, nonce));
    ok := count >= difficulty;
  }

  /** The search finds the least solution below its limit, or there is none. */
  method SolvePoW(hash: Hash, challenge: string, difficulty: int) returns (nonce: nat, found: bool)
    ensures found ==> nonce < 0x4000_0000 && VerifyPoW(hash, challenge, nonce, difficulty)
    ensures found ==> forall n: nat :: n < nonce ==> !VerifyPoW(hash, challenge, n, difficulty)
    ensures !found ==> nonce == 0 && forall n: nat :: n < 0x4000_0000 ==> !VerifyPoW(hash, challenge, n, difficulty)
  {
    for n := 0 to SEARCH_LIMIT
      invariant forall m: nat :: m < n ==> !VerifyPoW(hash, challenge, m, difficulty)
    {
      var ok := Verify(hash, challenge, n, difficulty);
      if ok {
        return n, true;
      }
    }
    return 0, false;
  }

  // ----- How rare solutions are

  /** The n-byte strings that denote the numbers below m. */
  ghost function Below(n: nat, m: nat): set<seq<bv8>> {
    set v: nat | v < m :: Encode(v, n)
  }

  lemma BelowNext(n: nat, m: nat)
    requires m < Pow2(8 * n)
    ensures Below(n, m + 1) == Below(n, m) + {Encode(m, n)} && Encode(m, n) !in Below(n, m)
  {
    hide Pow2;
    hide Encode;
    hide Value;
    if Encode(m, n) in Below(n, m) {
      var v: nat :| v < m && Encode(v, n) == Encode(m, n);
      ValueOfEncode(v, n);
      ValueOfEncode(m, n);
    }
  }

  lemma {:induction false} BelowSize(n: nat, m: nat)
    requires m <= Pow2(8 * n)
    ensures |Below(n, m)| == m
  {
    hide Pow2;
    hide Encode;
    if m > 0 {
      BelowSize(n, m - 1);
      BelowNext(n, m - 1);
    } else {
      assert Below(n, 0) == {};
    }
  }

  lemma InBelow(n: nat, m: nat, s: seq<bv8>)
    requires m <= Pow2(8 * n)
    ensures s in Below(n, m) <==> |s| == n && Value(s) < m
  {
    if s in Below(n, m) {
      var v: nat :| v < m && s == Encode(v, n);
      ValueOfEncode(v, n);
    }
    if |s| == n && Value(s) < m {
      EncodeOfValue(s);
    }
  }

  /**
   All n-byte strings form a set of 2^(8n); those with at least d leading zero bits, a set of exactly 2^(8n - d).
   */
  lemma SolutionsAreRare(n: nat, d: nat) returns (all: set<seq<bv8>>, solutions: set<seq<bv8>>)
    requires d <= 8 * n
    ensures forall s :: s in all <==> |s| == n
    ensures forall s :: s in solutions <==> |s| == n && LeadingZeros(s) >= d
    ensures |all| == Pow2(8 * n) && |solutions| == Pow2(8 * n - d)
  {
    all, solutions := Below(n, Pow2(8 * n)), Below(n, Pow2(8 * n - d));
    Pow2Monotone(8 * n - d, 8 * n);
    BelowSize(n, Pow2(8 * n));
    BelowSize(n, Pow2(8 * n - d));
    forall s ensures s in all <==> |s| == n {
      InBelow(n, Pow2(8 * n), s);
      if |s| == n {
        ValueBound(s);
      }
    }
    forall s ensures s in solutions <==> |s| == n && LeadingZeros(s) >= d {
      InBelow(n, Pow2(8 * n - d), s);
      if |s| == n {
        ThresholdMeaning(s, d);
      }
    }
  }
}
