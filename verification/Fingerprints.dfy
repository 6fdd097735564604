/** The byte stream that a normalized submission's fingerprint hashes, and the normalization of its capabilities. */
module Fingerprints {
  import opened Base
  import opened Ordering

  type Byte = b: int | 0 <= b < 256
  type Bytes = seq<Byte>

  /** A normalized request; texts are their bytes, the schedule its canonical UTC text. */
  datatype Request = Request(
    queue: Bytes, jobType: Bytes, payload: Bytes, priority: int, maxAttempts: int, timeoutSeconds: int,
    capabilities: seq<Bytes>, scheduledAt: Option<Bytes>)

  const TWO_64: int := 0x1_0000_0000_0000_0000

  /** Lengths fit the eight-byte prefix: Go slices are never longer. */
  predicate Fits(b: Bytes) {
    |b| < TWO_64
  }

  predicate Encodable(n: Request) {
    && Fits(n.queue) && Fits(n.jobType) && Fits(n.payload)
    && (forall i :: 0 <= i < |n.capabilities| ==> Fits(n.capabilities[i]))
    && (n.scheduledAt.Some? ==> Fits(n.scheduledAt.value))
    && IsInt64(n.priority) && IsInt64(n.maxAttempts) && IsInt64(n.timeoutSeconds) && IsInt64(|n.capabilities|)
  }

  predicate IsInt64(n: int) {
    -0x8000_0000_0000_0000 <= n < 0x8000_0000_0000_0000
  }

  // ------------------------------------------------------------ length prefixes

  /** The low k bytes of a number, most significant first. */
  function BigEndian(n: nat, k: nat): (b: Bytes)
    ensures |b| == k
  {
    if k == 0 then [] else BigEndian(n / 256, k - 1) + [n % 256]
  }

  function Range(k: nat): nat {
    if k == 0 then 1 else 256 * Range(k - 1)
  }

  lemma {:induction false} BigEndianIsInjective(m: nat, n: nat, k: nat)
    requires m < Range(k) && n < Range(k) && BigEndian(m, k) == BigEndian(n, k)
    ensures m == n
  {
    if k > 0 {
      var a, b := BigEndian(m / 256, k - 1), BigEndian(n / 256, k - 1);
      assert (a + [m % 256])[..k - 1] == a && (b + [n % 256])[..k - 1] == b;
      assert (a + [m % 256])[k - 1] == (b + [n % 256])[k - 1];
      BigEndianIsInjective(m / 256, n / 256, k - 1);
    }
  }

  lemma EightBytesHoldLengths()
    ensures Range(8) == TWO_64
  {
    assert Range(4) == 0x1_0000_0000;
  }

  function Field(b: Bytes): Bytes {
    BigEndian(|b|, 8) + b
  }

  /** A length-prefixed field ends where its length says: the stream determines the field and its rest. */
  lemma FieldPrefix(a: Bytes, b: Bytes, r: Bytes, s: Bytes)
    requires Fits(a) && Fits(b) && Field(a) + r == Field(b) + s
    ensures a == b && r == s
  {
    var x, y := Field(a) + r, Field(b) + s;
    assert x[..8] == BigEndian(|a|, 8) && y[..8] == BigEndian(|b|, 8);
    EightBytesHoldLengths();
    BigEndianIsInjective(|a|, |b|, 8);
    assert x[8..8 + |a|] == a && y[8..8 + |b|] == b;
    assert x[8 + |a|..] == r && y[8 + |b|..] == s;
  }

  // ------------------------------------------------------------------ decimals

  function Digits(n: nat): (d: Bytes)
    ensures d != [] && |d| <= n + 1
    ensures forall i :: 0 <= i < |d| ==> 48 <= d[i] < 58
  {
    if n < 10 then [48 + n] else Digits(n / 10) + [48 + n % 10]
  }

  function Itoa(n: int): Bytes {
    if n < 0 then [45] + Digits(-n) else Digits(n)
  }

  lemma {:induction false} DigitsAreInjective(m: nat, n: nat)
    requires Digits(m) == Digits(n)
    ensures m == n
  {
    assert m >= 10 ==> |Digits(m)| == |Digits(m / 10)| + 1 >= 2;
    assert n >= 10 ==> |Digits(n)| == |Digits(n / 10)| + 1 >= 2;
    if m >= 10 && n >= 10 {
      var a, b := Digits(m / 10), Digits(n / 10);
      assert (a + [48 + m % 10])[..|a|] == a && (b + [48 + n % 10])[..|b|] == b;
      assert (a + [48 + m % 10])[|a|] == (b + [48 + n % 10])[|b|];
      DigitsAreInjective(m / 10, n / 10);
    }
  }

  lemma ItoaIsInjective(m: int, n: int)
    requires Itoa(m) == Itoa(n)
    ensures m == n
  {
    assert Itoa(m)[0] == Itoa(n)[0];
    if m < 0 {
      assert Itoa(m)[1..] == Digits(-m) && Itoa(n)[1..] == Digits(-n);
      DigitsAreInjective(-m, -n);
    } else {
      DigitsAreInjective(m, n);
    }
  }

  // -------------------------------------------------------------------- stream

  function Ascii(s: string): Bytes {
    seq(|s|, i requires 0 <= i < |s| => if s[i] as int < 256 then s[i] as int else 63)
  }

  const VERSION := Ascii("taskforge.fingerprint.v1")
  const SCHEDULED_TAG := Ascii("taskforge.fingerprint.scheduled_at")

  /** Capabilities from the i-th on, then the schedule if there is one. */
  function Tail(n: Request, i: nat): Bytes
    requires i <= |n.capabilities|
    decreases |n.capabilities| - i
  {
    if i < |n.capabilities| then Field(n.capabilities[i]) + Tail(n, i + 1)
    else if n.scheduledAt.Some? then Field(SCHEDULED_TAG) + (Field(n.scheduledAt.value) + [])
    else []
  }

  function NumberPart(n: Request): Bytes {
    Field(Itoa(n.priority)) + (Field(Itoa(n.maxAttempts)) + (Field(Itoa(n.timeoutSeconds))
    + (Field(Itoa(|n.capabilities|)) + Tail(n, 0))))
  }

  function Stream(n: Request): Bytes {
    Field(VERSION) + (Field(n.queue) + (Field(n.jobType) + (Field(n.payload) + NumberPart(n))))
  }

  lemma {:induction false} TailIsInjective(x: Request, y: Request, i: nat)
    requires Encodable(x) && Encodable(y) && |x.capabilities| == |y.capabilities| && i <= |x.capabilities|
    requires Tail(x, i) == Tail(y, i)
    ensures x.capabilities[i..] == y.capabilities[i..] && x.scheduledAt == y.scheduledAt
    decreases |x.capabilities| - i
  {
    if i < |x.capabilities| {
      FieldPrefix(x.capabilities[i], y.capabilities[i], Tail(x, i + 1), Tail(y, i + 1));
      TailIsInjective(x, y, i + 1);
      assert x.capabilities[i..] == [x.capabilities[i]] + x.capabilities[i + 1..];
      assert y.capabilities[i..] == [y.capabilities[i]] + y.capabilities[i + 1..];
    } else if x.scheduledAt.Some? && y.scheduledAt.Some? {
      FieldPrefix(SCHEDULED_TAG, SCHEDULED_TAG, Field(x.scheduledAt.value) + [], Field(y.scheduledAt.value) + []);
      FieldPrefix(x.scheduledAt.value, y.scheduledAt.value, [], []);
    }
  }

  /** Equal numeric fields mean equal numbers. */
  lemma NumberPrefix(m: int, n: int, r: Bytes, s: Bytes)
    requires IsInt64(m) && IsInt64(n) && Field(Itoa(m)) + r == Field(Itoa(n)) + s
    ensures m == n && r == s
  {
    FieldPrefix(Itoa(m), Itoa(n), r, s);
    ItoaIsInjective(m, n);
  }

  lemma NumbersAreInjective(x: Request, y: Request)
    requires Encodable(x) && Encodable(y)
    requires NumberPart(x) == NumberPart(y)
    ensures x.priority == y.priority && x.maxAttempts == y.maxAttempts && x.timeoutSeconds == y.timeoutSeconds
    ensures |x.capabilities| == |y.capabilities| && Tail(x, 0) == Tail(y, 0)
  {
    var a3, b3 := Field(Itoa(|x.capabilities|)) + Tail(x, 0), Field(Itoa(|y.capabilities|)) + Tail(y, 0);
    var a2, b2 := Field(Itoa(x.timeoutSeconds)) + a3, Field(Itoa(y.timeoutSeconds)) + b3;
    var a1, b1 := Field(Itoa(x.maxAttempts)) + a2, Field(Itoa(y.maxAttempts)) + b2;
    NumberPrefix(x.priority, y.priority, a1, b1);
    NumberPrefix(x.maxAttempts, y.maxAttempts, a2, b2);
    NumberPrefix(x.timeoutSeconds, y.timeoutSeconds, a3, b3);
    NumberPrefix(|x.capabilities|, |y.capabilities|, Tail(x, 0), Tail(y, 0));
  }

  /** The fields of a list, one after the other. */
  function Fields(list: seq<Bytes>): Bytes {
    if list == [] then [] else Field(list[0]) + Fields(list[1..])
  }

  function Schedule(n: Request): seq<Bytes> {
    if n.scheduledAt.Some? then [SCHEDULED_TAG, n.scheduledAt.value] else []
  }

  lemma {:induction false} TailLists(n: Request, i: nat)
    requires i <= |n.capabilities|
    ensures Tail(n, i) == Fields(n.capabilities[i..] + Schedule(n))
    decreases |n.capabilities| - i
  {
    if i < |n.capabilities| {
      TailLists(n, i + 1);
      assert (n.capabilities[i..] + Schedule(n))[1..] == n.capabilities[i + 1..] + Schedule(n);
    } else if n.scheduledAt.Some? {
      var list := [SCHEDULED_TAG, n.scheduledAt.value];
      assert n.capabilities[i..] + Schedule(n) == list;
      assert list[1..] == [n.scheduledAt.value] && [n.scheduledAt.value][1..] == [];
      assert Fields([n.scheduledAt.value]) == Field(n.scheduledAt.value) + [];
    } else {
      assert n.capabilities[i..] + Schedule(n) == [];
    }
  }

  lemma FieldsStep(first: Bytes, rest: seq<Bytes>)
    ensures Fields([first] + rest) == Field(first) + Fields(rest)
  {
    assert ([first] + rest)[1..] == rest;
  }

  /** The stream is the version, then the request's fields in their fixed order, the capabilities counted, and any schedule tagged. */
  lemma StreamLists(n: Request)
    ensures Stream(n) == Fields([VERSION] + ([n.queue] + ([n.jobType] + ([n.payload] + ([Itoa(n.priority)] + ([Itoa(n.maxAttempts)]
                                + ([Itoa(n.timeoutSeconds)] + ([Itoa(|n.capabilities|)] + (n.capabilities + Schedule(n))))))))))
  {
    TailLists(n, 0);
    assert n.capabilities[0..] == n.capabilities;
    var l8 := n.capabilities + Schedule(n);
    var l7 := [Itoa(|n.capabilities|)] + l8;
    var l6 := [Itoa(n.timeoutSeconds)] + l7;
    var l5 := [Itoa(n.maxAttempts)] + l6;
    var l4 := [Itoa(n.priority)] + l5;
    var l3 := [n.payload] + l4;
    var l2 := [n.jobType] + l3;
    var l1 := [n.queue] + l2;
    FieldsStep(Itoa(|n.capabilities|), l8);
    FieldsStep(Itoa(n.timeoutSeconds), l7);
    FieldsStep(Itoa(n.maxAttempts), l6);
    FieldsStep(Itoa(n.priority), l5);
    FieldsStep(n.payload, l4);
    FieldsStep(n.jobType, l3);
    FieldsStep(n.queue, l2);
    FieldsStep(VERSION, l1);
  }

  /** Reads big-endian bytes back. */
  function Number(b: Bytes, radix: nat, zero: int): int {
    if b == [] then 0 else Number(b[..|b| - 1], radix, zero) * radix + (b[|b| - 1] - zero)
  }

  /** A length prefix reads back as the length. */
  lemma {:induction false} BigEndianReadsBack(n: nat, k: nat)
    requires n < Range(k)
    ensures Number(BigEndian(n, k), 256, 0) == n
  {
    if k > 0 {
      var b := BigEndian(n / 256, k - 1);
      assert (b + [n % 256])[..|b + [n % 256]| - 1] == b;
      BigEndianReadsBack(n / 256, k - 1);
    }
  }

  /** A decimal text reads back as its number. */
  lemma {:induction false} DigitsReadBack(n: nat)
    ensures Number(Digits(n), 10, 48) == n
  {
    if n < 10 {
      assert Digits(n)[..0] == [];
      assert Number([], 10, 48) == 0;
    } else {
      var d := Digits(n / 10);
      assert (d + [48 + n % 10])[..|d + [48 + n % 10]| - 1] == d;
      DigitsReadBack(n / 10);
    }
  }

  /** Requests with equal pre-hash streams are equal requests. */
  lemma StreamIsInjective(x: Request, y: Request)
    requires Encodable(x) && Encodable(y) && Stream(x) == Stream(y)
    ensures x == y
  {
    var a3, b3 := Field(x.payload) + NumberPart(x), Field(y.payload) + NumberPart(y);
    var a2, b2 := Field(x.jobType) + a3, Field(y.jobType) + b3;
    var a1, b1 := Field(x.queue) + a2, Field(y.queue) + b2;
    assert Stream(x) == Field(VERSION) + a1 && Stream(y) == Field(VERSION) + b1;
    FieldPrefix(VERSION, VERSION, a1, b1);
    FieldPrefix(x.queue, y.queue, a2, b2);
    FieldPrefix(x.jobType, y.jobType, a3, b3);
    FieldPrefix(x.payload, y.payload, NumberPart(x), NumberPart(y));
    NumbersAreInjective(x, y);
    TailIsInjective(x, y, 0);
    assert x.capabilities == x.capabilities[0..] && y.capabilities == y.capabilities[0..];
  }

  /** Feeds one field; the rest is what the stream still owes after it. */
  method Write(fed: Bytes, b: Bytes, ghost rest: Bytes) returns (out: Bytes)
    ensures out == fed + Field(b) && out + rest == fed + (Field(b) + rest)
  {
    var length := BigEndian(|b|, 8);
    out := fed + length;
    out := out + b;
    assert length + b == Field(b);
  }

  /** Feeds the running hash field by field; what it has been fed is the stream. */
  method FeedHash(n: Request) returns (fed: Bytes)
    ensures fed == Stream(n)
  {
    fed := Write([], VERSION, Field(n.queue) + (Field(n.jobType) + (Field(n.payload) + NumberPart(n))));
    fed := Write(fed, n.queue, Field(n.jobType) + (Field(n.payload) + NumberPart(n)));
    fed := Write(fed, n.jobType, Field(n.payload) + NumberPart(n));
    fed := Write(fed, n.payload, NumberPart(n));
    ghost var counted := Field(Itoa(|n.capabilities|)) + Tail(n, 0);
    fed := Write(fed, Itoa(n.priority), Field(Itoa(n.maxAttempts)) + (Field(Itoa(n.timeoutSeconds)) + counted));
    fed := Write(fed, Itoa(n.maxAttempts), Field(Itoa(n.timeoutSeconds)) + counted);
    fed := Write(fed, Itoa(n.timeoutSeconds), counted);
    fed := Write(fed, Itoa(|n.capabilities|), Tail(n, 0));
    var i := 0;
    while i < |n.capabilities|
      invariant 0 <= i <= |n.capabilities|
      invariant fed + Tail(n, i) == Stream(n)
    {
      fed := Write(fed, n.capabilities[i], Tail(n, i + 1));
      i := i + 1;
    }
    if n.scheduledAt.Some? {
      fed := Write(fed, SCHEDULED_TAG, Field(n.scheduledAt.value) + []);
      fed := Write(fed, n.scheduledAt.value, []);
    }
  }

  // -------------------------------------------------------------- capabilities

  const MAX_CAPABILITIES := 16

  /** The capabilities that survive trimming and the name pattern, as a set. */
  ghost function Accepted(input: seq<string>, trim: string -> string, named: string -> bool): set<string> {
    set i | 0 <= i < |input| && named(trim(input[i])) :: trim(input[i])
  }

  /** Trims, checks, deduplicates and sorts; reports the positions that name nothing. */
  method NormalizeCapabilities(input: seq<string>, trim: string -> string, named: string -> bool)
    returns (out: seq<string>, problems: seq<int>)
    ensures Sorted(out)
    ensures |input| <= MAX_CAPABILITIES ==> forall c :: c in out <==> c in Accepted(input, trim, named)
    ensures problems == [] <==> |input| <= MAX_CAPABILITIES && forall i :: 0 <= i < |input| ==> named(trim(input[i]))
  {
    out, problems := [], [];
    if |input| > MAX_CAPABILITIES {
      return [], [-1];
    }
    var seen: set<string> := {};
    var i := 0;
    while i < |input|
      invariant 0 <= i <= |input|
      invariant seen == set k | 0 <= k < i && named(trim(input[k])) :: trim(input[k])
      invariant problems == [] <==> forall k :: 0 <= k < i ==> named(trim(input[k]))
    {
      var c := trim(input[i]);
      if !named(c) {
        problems := problems + [i];
      } else if c !in seen {
        seen := seen + {c};
      }
      i := i + 1;
    }
    out := SortKeys(seen);
  }

  /** Listings of the same capabilities, in any order and with repetitions, normalize to the same list. */
  lemma SameCapabilitiesNormalizeAlike(a: seq<string>, b: seq<string>, x: seq<string>, y: seq<string>,
                                       trim: string -> string, named: string -> bool)
    requires Sorted(a) && (forall c :: c in a <==> c in Accepted(x, trim, named))
    requires Sorted(b) && (forall c :: c in b <==> c in Accepted(y, trim, named))
    ensures a == b <==> Accepted(x, trim, named) == Accepted(y, trim, named)
  {
    if Accepted(x, trim, named) == Accepted(y, trim, named) {
      SortedIsUnique(a, b);
    }
  }
}
