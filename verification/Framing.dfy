/**
 Reading a run of self-delimiting items off a byte string, and the run's
 encoding. Used for the sections of a DNS message.
 */
module Framing {
  import opened Prelude

  newtype Octet = b: int | 0 <= b < 256

  /** x stands at position `at` of m. */
  ghost predicate Here(m: seq<Octet>, at: nat, x: seq<Octet>) {
    at + |x| <= |m| && m[at..at + |x|] == x
  }

  lemma HereSplit(m: seq<Octet>, at: nat, x: seq<Octet>, y: seq<Octet>)
    ensures Here(m, at, x + y) <==> Here(m, at, x) && Here(m, at + |x|, y)
  {
    if at + |x| + |y| <= |m| {
      var a, b := m[at..at + |x|], m[at + |x|..at + |x| + |y|];
      assert m[at..at + |x + y|] == a + b;
      assert (a + b)[..|x|] == a && (a + b)[|x|..] == b && (x + y)[..|x|] == x && (x + y)[|x|..] == y;
    }
  }

  /** n items read one behind the other from `at` on, and where they end. */
  function Walk<T>(read: nat -> Option<(T, nat)>, at: nat, n: nat): Option<(seq<T>, nat)>
    decreases n
  {
    if n == 0 then Some(([], at)) else
    match read(at)
    case None => None
    case Some((x, next)) => Behind([x], Walk(read, next, n - 1))
  }

  function Behind<T>(front: seq<T>, w: Option<(seq<T>, nat)>): Option<(seq<T>, nat)> {
    match w
    case None => None
    case Some((more, end)) => Some((front + more, end))
  }

  lemma BehindNothing<T>(w: Option<(seq<T>, nat)>)
    ensures Behind([], w) == w
  {
    if w.Some? { assert [] + w.value.0 == w.value.0; }
  }

  lemma BehindTwice<T>(a: seq<T>, b: seq<T>, w: Option<(seq<T>, nat)>)
    ensures Behind(a, Behind(b, w)) == Behind(a + b, w)
  {
    if w.Some? { assert a + (b + w.value.0) == (a + b) + w.value.0; }
  }

  /** A walk of n items from `start` has passed some of them and k are left from `at` on. */
  ghost predicate Walking<T>(read: nat -> Option<(T, nat)>, start: nat, n: nat, passed: seq<T>, at: nat, k: nat) {
    Walk(read, start, n) == Behind(passed, Walk(read, at, k))
  }

  lemma WalkBegins<T>(read: nat -> Option<(T, nat)>, start: nat, n: nat)
    ensures Walking(read, start, n, [], start, n)
  {
    BehindNothing(Walk(read, start, n));
  }

  lemma WalkGoesOn<T>(read: nat -> Option<(T, nat)>, start: nat, n: nat, passed: seq<T>, at: nat, k: nat)
    requires Walking(read, start, n, passed, at, k) && k > 0
    ensures read(at).None? ==> Walk(read, start, n).None?
    ensures read(at).Some? ==> Walking(read, start, n, passed + [read(at).value.0], read(at).value.1, k - 1)
  {
    if read(at).Some? { BehindTwice(passed, [read(at).value.0], Walk(read, read(at).value.1, k - 1)); }
  }

  lemma WalkEnds<T>(read: nat -> Option<(T, nat)>, start: nat, n: nat, passed: seq<T>, at: nat)
    requires Walking(read, start, n, passed, at, 0)
    ensures Walk(read, start, n) == Some((passed, at))
  {
    assert passed + [] == passed;
  }

  function Concat<T>(encode: T -> seq<Octet>, xs: seq<T>): seq<Octet> {
    if xs == [] then [] else encode(xs[0]) + Concat(encode, xs[1..])
  }

  function Map<T>(f: T -> T, xs: seq<T>): seq<T> {
    if xs == [] then [] else [f(xs[0])] + Map(f, xs[1..])
  }

  ghost predicate All<T>(ok: T -> bool, xs: seq<T>) {
    forall i :: 0 <= i < |xs| ==> ok(xs[i])
  }

  /** What read finds at a position of m is the view of an item whose encoding stands there. */
  ghost predicate ReadsOnly<T(!new)>(m: seq<Octet>, read: nat -> Option<(T, nat)>, encode: T -> seq<Octet>,
                                     ok: T -> bool, view: T -> T)
  {
    forall at: nat :: read(at).Some? ==> exists y :: IsItemAt(m, at, read(at).value, encode, ok, view, y)
  }

  ghost predicate IsItemAt<T>(m: seq<Octet>, at: nat, found: (T, nat), encode: T -> seq<Octet>,
                              ok: T -> bool, view: T -> T, y: T)
  {
    ok(y) && view(y) == found.0 && Here(m, at, encode(y)) && found.1 == at + |encode(y)|
  }

  /** Wherever the encoding of an item stands, read finds its view. */
  ghost predicate ReadsAll<T(!new)>(m: seq<Octet>, read: nat -> Option<(T, nat)>, encode: T -> seq<Octet>,
                                    ok: T -> bool, view: T -> T)
  {
    forall at: nat, y :: ok(y) && Here(m, at, encode(y)) ==> read(at) == Some((view(y), at + |encode(y)|))
  }

  lemma {:induction false} WalkIsSound<T(!new)>(m: seq<Octet>, read: nat -> Option<(T, nat)>, encode: T -> seq<Octet>,
                                                ok: T -> bool, view: T -> T, at: nat, n: nat)
    returns (ys: seq<T>)
    requires ReadsOnly(m, read, encode, ok, view) && Walk(read, at, n).Some? && at <= |m|
    ensures |ys| == n && All(ok, ys) && Here(m, at, Concat(encode, ys))
    ensures Walk(read, at, n) == Some((Map(view, ys), at + |Concat(encode, ys)|))
    decreases n
  {
    if n == 0 {
      ys := [];
    } else {
      var y :| IsItemAt(m, at, read(at).value, encode, ok, view, y);
      var more := WalkIsSound(m, read, encode, ok, view, read(at).value.1, n - 1);
      ys := [y] + more;
      assert ys[1..] == more;
      HereSplit(m, at, encode(y), Concat(encode, more));
    }
  }

  /** The first item of a section, and the section behind it. */
  lemma FirstItem<T(!new)>(m: seq<Octet>, read: nat -> Option<(T, nat)>, encode: T -> seq<Octet>, ok: T -> bool,
                           view: T -> T, at: nat, ys: seq<T>)
    requires ys != [] && ReadsAll(m, read, encode, ok, view) && ok(ys[0]) && Here(m, at, Concat(encode, ys))
    ensures var next := at + |encode(ys[0])|;
            read(at) == Some((view(ys[0]), next)) && Here(m, next, Concat(encode, ys[1..]))
  {
    HereSplit(m, at, encode(ys[0]), Concat(encode, ys[1..]));
  }

  lemma WalkCons<T>(read: nat -> Option<(T, nat)>, encode: T -> seq<Octet>, view: T -> T, at: nat, ys: seq<T>)
    requires ys != [] && read(at) == Some((view(ys[0]), at + |encode(ys[0])|))
    requires var next := at + |encode(ys[0])|;
             Walk(read, next, |ys| - 1) == Some((Map(view, ys[1..]), next + |Concat(encode, ys[1..])|))
    ensures Walk(read, at, |ys|) == Some((Map(view, ys), at + |Concat(encode, ys)|))
  {
  }

  lemma {:induction false} WalkIsComplete<T(!new)>(m: seq<Octet>, read: nat -> Option<(T, nat)>,
                                                   encode: T -> seq<Octet>, ok: T -> bool, view: T -> T,
                                                   at: nat, ys: seq<T>)
    requires ReadsAll(m, read, encode, ok, view) && All(ok, ys) && Here(m, at, Concat(encode, ys))
    ensures Walk(read, at, |ys|) == Some((Map(view, ys), at + |Concat(encode, ys)|))
    decreases |ys|
  {
    if ys != [] {
      FirstItem(m, read, encode, ok, view, at, ys);
      WalkIsComplete(m, read, encode, ok, view, at + |encode(ys[0])|, ys[1..]);
      WalkCons(read, encode, view, at, ys);
    }
  }

  /** Two sections one behind the other; the items of the second are wanted. */
  function TwoWalks<A, B>(first: nat -> Option<(A, nat)>, second: nat -> Option<(B, nat)>, start: nat, n: nat, k: nat)
    : Option<seq<B>>
  {
    match Walk(first, start, n)
    case None => None
    case Some((_, at)) =>
      match Walk(second, at, k)
      case None => None
      case Some((xs, _)) => Some(xs)
  }

  /** A section of m holding xs, from `at` to `end`. */
  ghost predicate Section<T>(m: seq<Octet>, at: nat, encode: T -> seq<Octet>, ok: T -> bool, xs: seq<T>, end: nat) {
    All(ok, xs) && Here(m, at, Concat(encode, xs)) && end == at + |Concat(encode, xs)|
  }

  lemma TwoWalksAre<A, B>(first: nat -> Option<(A, nat)>, second: nat -> Option<(B, nat)>, start: nat,
                          n: nat, xs: seq<A>, at: nat, k: nat, ys: seq<B>, end: nat)
    requires Walk(first, start, n) == Some((xs, at)) && Walk(second, at, k) == Some((ys, end))
    ensures TwoWalks(first, second, start, n, k) == Some(ys)
  {
  }

  lemma TwoWalksStop<A, B>(first: nat -> Option<(A, nat)>, second: nat -> Option<(B, nat)>, start: nat, n: nat, k: nat)
    requires first(start).None? && n > 0
    ensures TwoWalks(first, second, start, n, k).None?
  {
  }

  lemma TwoWalksSound<A(!new), B(!new)>(
      m: seq<Octet>, first: nat -> Option<(A, nat)>, encodeA: A -> seq<Octet>, okA: A -> bool, viewA: A -> A,
      second: nat -> Option<(B, nat)>, encodeB: B -> seq<Octet>, okB: B -> bool, viewB: B -> B,
      start: nat, n: nat, k: nat)
    returns (xs: seq<A>, ys: seq<B>, at: nat, end: nat)
    requires ReadsOnly(m, first, encodeA, okA, viewA) && ReadsOnly(m, second, encodeB, okB, viewB)
    requires start <= |m| && TwoWalks(first, second, start, n, k).Some?
    ensures |xs| == n && |ys| == k && Section(m, start, encodeA, okA, xs, at) && Section(m, at, encodeB, okB, ys, end)
    ensures TwoWalks(first, second, start, n, k) == Some(Map(viewB, ys))
  {
    xs := WalkIsSound(m, first, encodeA, okA, viewA, start, n);
    at := start + |Concat(encodeA, xs)|;
    ys := WalkIsSound(m, second, encodeB, okB, viewB, at, k);
    end := at + |Concat(encodeB, ys)|;
  }

  lemma SectionIsWalked<T(!new)>(m: seq<Octet>, read: nat -> Option<(T, nat)>, encode: T -> seq<Octet>,
                                 ok: T -> bool, view: T -> T, at: nat, xs: seq<T>, end: nat)
    requires ReadsAll(m, read, encode, ok, view) && Section(m, at, encode, ok, xs, end)
    ensures Walk(read, at, |xs|) == Some((Map(view, xs), end))
  {
    WalkIsComplete(m, read, encode, ok, view, at, xs);
  }

  lemma TwoWalksComplete<A(!new), B(!new)>(
      m: seq<Octet>, first: nat -> Option<(A, nat)>, encodeA: A -> seq<Octet>, okA: A -> bool, viewA: A -> A,
      second: nat -> Option<(B, nat)>, encodeB: B -> seq<Octet>, okB: B -> bool, viewB: B -> B, start: nat,
      xs: seq<A>, ys: seq<B>, at: nat, end: nat)
    requires ReadsAll(m, first, encodeA, okA, viewA) && ReadsAll(m, second, encodeB, okB, viewB)
    requires Section(m, start, encodeA, okA, xs, at) && Section(m, at, encodeB, okB, ys, end)
    ensures TwoWalks(first, second, start, |xs|, |ys|) == Some(Map(viewB, ys))
  {
    SectionIsWalked(m, first, encodeA, okA, viewA, start, xs, at);
    SectionIsWalked(m, second, encodeB, okB, viewB, at, ys, end);
    TwoWalksAre(first, second, start, |xs|, Map(viewA, xs), at, |ys|, Map(viewB, ys), end);
  }
}
