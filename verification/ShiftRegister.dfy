/** A linear shift register that takes in one byte at a time, over any kind of register: if the
    shift is linear and invertible and a byte placed low moves up one byte place in eight shifts,
    then each byte is a bijection of the register and no change inside three consecutive bytes
    goes unnoticed. */
module ShiftRegister {
  datatype Machine<!T> = Machine(
    xor: (T, T) -> T,
    shift: T -> T,
    unshift: T -> T,
    high: bv8 -> T,
    middle: bv8 -> T,
    low: bv8 -> T)

  function Iterate<T>(f: T -> T, n: nat, c: T): T { if n == 0 then c else f(Iterate(f, n - 1, c)) }

  function Octet<T>(m: Machine<T>, c: T, x: bv8): T { Iterate(m.shift, 8, m.xor(c, m.high(x))) }

  function Octets<T>(m: Machine<T>, c: T, data: seq<bv8>): T {
    if data == [] then c else Octet(m, Octets(m, c, data[..|data| - 1]), data[|data| - 1])
  }

  // The inverse of taking in the byte `x`.
  function Unoctet<T>(m: Machine<T>, c: T, x: bv8): T { m.xor(Iterate(m.unshift, 8, c), m.high(x)) }

  function Three<T>(m: Machine<T>, x: bv8, y: bv8, z: bv8): T { m.xor(m.xor(m.high(x), m.middle(y)), m.low(z)) }

  ghost predicate Associative<T(!new)>(m: Machine<T>) { forall a, b, c :: m.xor(m.xor(a, b), c) == m.xor(a, m.xor(b, c)) }

  ghost predicate Injective<T(!new)>(m: Machine<T>) { forall c, a, b :: m.xor(c, a) == m.xor(c, b) ==> a == b }

  ghost predicate Cancels<T(!new)>(m: Machine<T>) { forall a, b :: m.xor(m.xor(a, b), b) == a }

  ghost predicate Linear<T(!new)>(m: Machine<T>) { forall a, b :: m.shift(m.xor(a, b)) == m.xor(m.shift(a), m.shift(b)) }

  ghost predicate Undone<T(!new)>(f: T -> T, g: T -> T) { forall a :: g(f(a)) == a }

  ghost predicate Places<T(!new)>(m: Machine<T>) {
    && (forall x :: Iterate(m.shift, 8, m.low(x)) == m.middle(x))
    && (forall x :: Iterate(m.shift, 8, m.middle(x)) == m.high(x))
  }

  ghost predicate Words<T(!new)>(m: Machine<T>) {
    forall x, y, z, x', y', z' :: Three(m, x, y, z) == Three(m, x', y', z') ==> x == x' && y == y' && z == z'
  }

  ghost predicate Lawful<T(!new)>(m: Machine<T>) {
    && Associative(m) && Injective(m) && Cancels(m) && Linear(m)
    && Undone(m.shift, m.unshift) && Undone(m.unshift, m.shift) && Places(m) && Words(m)
  }

  lemma {:induction false} IterateLinear<T(!new)>(m: Machine<T>, n: nat, a: T, b: T)
    requires Linear(m)
    ensures Iterate(m.shift, n, m.xor(a, b)) == m.xor(Iterate(m.shift, n, a), Iterate(m.shift, n, b))
  {
    if n > 0 {
      IterateLinear(m, n - 1, a, b);
    }
  }

  lemma {:induction false} IterateInside<T>(f: T -> T, n: nat, c: T)
    ensures Iterate(f, n, f(c)) == f(Iterate(f, n, c))
  {
    if n > 0 {
      IterateInside(f, n - 1, c);
    }
  }

  lemma {:induction false} IterateInverse<T(!new)>(f: T -> T, g: T -> T, n: nat, c: T)
    requires Undone(f, g)
    ensures Iterate(g, n, Iterate(f, n, c)) == c
  {
    if n > 0 {
      IterateInside(g, n - 1, Iterate(f, n, c));
      IterateInverse(f, g, n - 1, c);
    }
  }

  /** Taking in a byte is a bijection of the register. */
  lemma OctetBijective<T(!new)>(m: Machine<T>, c: T, x: bv8)
    requires Cancels(m) && Undone(m.shift, m.unshift) && Undone(m.unshift, m.shift)
    ensures Unoctet(m, Octet(m, c, x), x) == c
    ensures Octet(m, Unoctet(m, c, x), x) == c
  {
    IterateInverse(m.shift, m.unshift, 8, m.xor(c, m.high(x)));
    IterateInverse(m.unshift, m.shift, 8, c);
  }

  lemma {:induction false} OctetsConcat<T>(m: Machine<T>, c: T, xs: seq<bv8>, ys: seq<bv8>)
    ensures Octets(m, c, xs + ys) == Octets(m, Octets(m, c, xs), ys)
    decreases |ys|
  {
    if ys == [] {
      assert xs + ys == xs;
    } else {
      assert (xs + ys)[..|xs + ys| - 1] == xs + ys[..|ys| - 1];
      OctetsConcat(m, c, xs, ys[..|ys| - 1]);
    }
  }

  // A common suffix keeps different registers different.
  lemma {:induction false} SuffixInjective<T(!new)>(m: Machine<T>, c: T, d: T, suffix: seq<bv8>)
    requires Lawful(m) && Octets(m, c, suffix) == Octets(m, d, suffix)
    ensures c == d
    decreases |suffix|
  {
    if suffix != [] {
      var front, last := suffix[..|suffix| - 1], suffix[|suffix| - 1];
      OctetBijective(m, Octets(m, c, front), last);
      OctetBijective(m, Octets(m, d, front), last);
      SuffixInjective(m, c, d, front);
    }
  }

  // Taking in a byte after eight shifts is the same as having placed it one byte lower before them.
  lemma PlacedLower<T(!new)>(m: Machine<T>, c: T, y: bv8)
    requires Linear(m) && Places(m)
    ensures m.xor(Iterate(m.shift, 8, c), m.high(y)) == Iterate(m.shift, 8, m.xor(c, m.middle(y)))
    ensures m.xor(Iterate(m.shift, 8, c), m.middle(y)) == Iterate(m.shift, 8, m.xor(c, m.low(y)))
  {
    IterateLinear(m, 8, c, m.middle(y));
    IterateLinear(m, 8, c, m.low(y));
  }

  // Three bytes act as their word followed by 24 shifts.
  lemma ThreeOctets<T(!new)>(m: Machine<T>, c: T, x: bv8, y: bv8, z: bv8)
    requires Associative(m) && Linear(m) && Places(m)
    ensures Octet(m, Octet(m, Octet(m, c, x), y), z) ==
      Iterate(m.shift, 8, Iterate(m.shift, 8, Iterate(m.shift, 8, m.xor(c, Three(m, x, y, z)))))
  {
    var a := m.xor(c, m.high(x));
    var b := m.xor(a, m.middle(y));
    PlacedLower(m, a, y);
    assert Octet(m, Octet(m, c, x), y) == Iterate(m.shift, 8, Iterate(m.shift, 8, b));
    PlacedLower(m, Iterate(m.shift, 8, b), z);
    PlacedLower(m, b, z);
    assert m.xor(b, m.low(z)) == m.xor(c, Three(m, x, y, z));
  }

  lemma Spelled<T>(m: Machine<T>, c: T, w: seq<bv8>)
    requires |w| == 3
    ensures Octets(m, c, w) == Octet(m, Octet(m, Octet(m, c, w[0]), w[1]), w[2])
  {
    assert w[..2][..1] == w[..1] && w[..1][..0] == [];
    assert Octets(m, c, w[..1]) == Octet(m, c, w[0]);
    assert Octets(m, c, w[..2]) == Octet(m, Octet(m, c, w[0]), w[1]);
  }

  lemma ShiftsInjective<T(!new)>(m: Machine<T>, a: T, b: T)
    requires Undone(m.shift, m.unshift) && Iterate(m.shift, 8, a) == Iterate(m.shift, 8, b)
    ensures a == b
  {
    IterateInverse(m.shift, m.unshift, 8, a);
    IterateInverse(m.shift, m.unshift, 8, b);
  }

  function Thrice<T>(m: Machine<T>, c: T): T {
    Iterate(m.shift, 8, Iterate(m.shift, 8, Iterate(m.shift, 8, c)))
  }

  lemma ThriceInjective<T(!new)>(m: Machine<T>, a: T, b: T)
    requires Undone(m.shift, m.unshift) && Thrice(m, a) == Thrice(m, b)
    ensures a == b
  {
    ShiftsInjective(m, Iterate(m.shift, 8, Iterate(m.shift, 8, a)), Iterate(m.shift, 8, Iterate(m.shift, 8, b)));
    ShiftsInjective(m, Iterate(m.shift, 8, a), Iterate(m.shift, 8, b));
    ShiftsInjective(m, a, b);
  }

  lemma WindowThrice<T(!new)>(m: Machine<T>, c: T, w: seq<bv8>)
    requires Associative(m) && Linear(m) && Places(m) && |w| == 3
    ensures Octets(m, c, w) == Thrice(m, m.xor(c, Three(m, w[0], w[1], w[2])))
  {
    Spelled(m, c, w);
    ThreeOctets(m, c, w[0], w[1], w[2]);
  }

  lemma WordsDiffer<T(!new)>(m: Machine<T>, c: T, v: seq<bv8>, w: seq<bv8>)
    requires Injective(m) && Words(m) && |v| == |w| == 3
    requires m.xor(c, Three(m, v[0], v[1], v[2])) == m.xor(c, Three(m, w[0], w[1], w[2]))
    ensures v == w
  {
    assert Three(m, v[0], v[1], v[2]) == Three(m, w[0], w[1], w[2]);
    assert v[0] == w[0] && v[1] == w[1] && v[2] == w[2];
  }

  lemma WindowInjective<T(!new)>(m: Machine<T>, c: T, v: seq<bv8>, w: seq<bv8>)
    requires Lawful(m) && |v| == |w| == 3 && Octets(m, c, v) == Octets(m, c, w)
    ensures v == w
  {
    WindowThrice(m, c, v);
    WindowThrice(m, c, w);
    ThriceInjective(m, m.xor(c, Three(m, v[0], v[1], v[2])), m.xor(c, Three(m, w[0], w[1], w[2])));
    WordsDiffer(m, c, v, w);
  }

  // A shorter window is a window of three bytes, the first ones zero, from an earlier register.
  lemma ShortWindow<T(!new)>(m: Machine<T>, c: T, v: seq<bv8>, w: seq<bv8>)
    requires Lawful(m) && |v| == |w| <= 3 && Octets(m, c, v) == Octets(m, c, w)
    ensures v == w
    decreases 3 - |v|
  {
    if |v| == 3 {
      WindowInjective(m, c, v, w);
    } else {
      var d := Unoctet(m, c, 0);
      OctetBijective(m, c, 0);
      assert Octets(m, d, [0]) == c by {
        assert [0 as bv8][..0] == [];
      }
      OctetsConcat(m, d, [0], v);
      OctetsConcat(m, d, [0], w);
      ShortWindow(m, d, [0] + v, [0] + w);
      assert ([0] + v)[1..] == v && ([0] + w)[1..] == w;
    }
  }

  lemma WindowApart<T(!new)>(m: Machine<T>, c: T, p: seq<bv8>, v: seq<bv8>, w: seq<bv8>, s: seq<bv8>)
    requires Lawful(m) && |v| == |w| <= 3
    requires Octets(m, c, p + v + s) == Octets(m, c, p + w + s)
    ensures v == w
  {
    OctetsConcat(m, c, p + v, s);
    OctetsConcat(m, c, p + w, s);
    OctetsConcat(m, c, p, v);
    OctetsConcat(m, c, p, w);
    SuffixInjective(m, Octets(m, c, p + v), Octets(m, c, p + w), s);
    ShortWindow(m, Octets(m, c, p), v, w);
  }

  predicate SameOutside<T(==)>(x: seq<T>, y: seq<T>, at: nat) {
    |x| == |y| && forall j :: 0 <= j < |x| && !(at <= j < at + 3) ==> x[j] == y[j]
  }

  lemma Split(x: seq<bv8>, y: seq<bv8>, at: nat) returns (p: seq<bv8>, v: seq<bv8>, w: seq<bv8>, s: seq<bv8>)
    requires SameOutside(x, y, at)
    ensures x == p + v + s && y == p + w + s && |v| == |w| <= 3
  {
    var start := if at <= |x| then at else |x|;
    var end := if at + 3 <= |x| then at + 3 else |x|;
    p, v, w, s := x[..start], x[start..end], y[start..end], x[end..];
    assert y[..start] == p && y[end..] == s;
    Parts(x, start, end);
    Parts(y, start, end);
  }

  lemma Parts<T>(x: seq<T>, i: nat, j: nat)
    requires i <= j <= |x|
    ensures x == x[..i] + x[i..j] + x[j..]
  {
  }

  /** Two inputs of one length that differ, but only inside a window of three consecutive bytes,
      leave different registers. */
  lemma WindowDetected<T(!new)>(m: Machine<T>, c: T, x: seq<bv8>, y: seq<bv8>, at: nat)
    requires Lawful(m) && SameOutside(x, y, at) && x != y
    ensures Octets(m, c, x) != Octets(m, c, y)
  {
    var p, v, w, s := Split(x, y, at);
    if Octets(m, c, x) == Octets(m, c, y) {
      WindowApart(m, c, p, v, w, s);
    }
  }
}
