/** Lists on the wire: items written one behind the other, and read back by count. */
module Lists {
  import opened Common

  function WriteList<T>(write: T -> Bytes, xs: seq<T>): Bytes {
    if xs == [] then [] else write(xs[0]) + WriteList(write, xs[1..])
  }

  function ReadList<T>(read: Bytes -> Option<(T, Bytes)>, s: Bytes, n: nat): Option<(seq<T>, Bytes)>
    decreases n
  {
    if n == 0 then Some(([], s)) else
    match read(s) case None => None case Some((x, s)) =>
    match ReadList(read, s, n - 1) case None => None case Some((xs, s)) =>
      Some(([x] + xs, s))
  }

  function Map<T, U>(f: T -> U, xs: seq<T>): (ys: seq<U>)
    ensures |ys| == |xs| && forall i | 0 <= i < |xs| :: ys[i] == f(xs[i])
  {
    if xs == [] then [] else [f(xs[0])] + Map(f, xs[1..])
  }

  lemma MapAppend<T, U>(f: T -> U, xs: seq<T>, x: T)
    ensures Map(f, xs + [x]) == Map(f, xs) + [f(x)]
  {
  }

  ghost predicate All<T>(p: T -> bool, xs: seq<T>) {
    forall i | 0 <= i < |xs| :: p(xs[i])
  }

  /** Reading what was written yields the normal form, for every item that fits. */
  ghost predicate ReadsBack<T(!new)>(write: T -> Bytes, read: Bytes -> Option<(T, Bytes)>, norm: T -> T,
                              fits: T -> bool) {
    forall x: T, rest: Bytes | fits(x) :: read(write(x) + rest) == Some((norm(x), rest))
  }

  /** Whatever is read is a fitting item in normal form, and was written. */
  ghost predicate ReadsOnlyWritten<T(!new)>(
    write: T -> Bytes, read: Bytes -> Option<(T, Bytes)>, norm: T -> T, fits: T -> bool)
  {
    forall s: Bytes | read(s).Some? ::
      s == write(read(s).value.0) + read(s).value.1 && fits(read(s).value.0) && norm(read(s).value.0) == read(s).value.0
  }

  lemma Assoc(a: Bytes, b: Bytes, c: Bytes)
    ensures (a + b) + c == a + (b + c)
  {
  }

  /** Appending part by part is the same as appending the whole. */
  lemma Parts3(z: Bytes, a: Bytes, b: Bytes, c: Bytes)
    ensures z + a + b + c == z + (a + (b + c))
  {
    Assoc(z, a, b);
    Assoc(z, a + b, c);
    Assoc(a, b, c);
  }

  lemma Parts4(z: Bytes, a: Bytes, b: Bytes, c: Bytes, d: Bytes)
    ensures z + a + b + c + d == z + (a + (b + (c + d)))
  {
    Assoc(z, a, b + (c + d));
    Parts3(z + a, b, c, d);
  }

  lemma Parts5(z: Bytes, a: Bytes, b: Bytes, c: Bytes, d: Bytes, e: Bytes)
    ensures z + a + b + c + d + e == z + (a + (b + (c + (d + e))))
  {
    Assoc(z, a, b + (c + (d + e)));
    Parts4(z + a, b, c, d, e);
  }

  lemma Parts7(z: Bytes, a: Bytes, b: Bytes, c: Bytes, d: Bytes, e: Bytes, f: Bytes, g: Bytes)
    ensures z + a + b + c + d + e + f + g == z + (a + (b + (c + (d + (e + (f + g))))))
  {
    Assoc(z, a, b + (c + (d + (e + (f + g)))));
    Assoc(z + a, b, c + (d + (e + (f + g))));
    Parts5(z + a + b, c, d, e, f, g);
  }

  lemma {:induction false} ListBack<T(!new)>(
    write: T -> Bytes, read: Bytes -> Option<(T, Bytes)>, norm: T -> T, fits: T -> bool, xs: seq<T>, rest: Bytes)
    requires ReadsBack(write, read, norm, fits) && All(fits, xs)
    ensures ReadList(read, WriteList(write, xs) + rest, |xs|) == Some((Map(norm, xs), rest))
  {
    if xs == [] {
      assert WriteList(write, xs) + rest == rest;
    } else {
      Assoc(write(xs[0]), WriteList(write, xs[1..]), rest);
      ListBack(write, read, norm, fits, xs[1..], rest);
    }
  }

  lemma {:induction false} ListFrom<T(!new)>(
    write: T -> Bytes, read: Bytes -> Option<(T, Bytes)>, norm: T -> T, fits: T -> bool, s: Bytes, n: nat)
    requires ReadsOnlyWritten(write, read, norm, fits) && ReadList(read, s, n).Some?
    ensures var (xs, rest) := ReadList(read, s, n).value;
      s == WriteList(write, xs) + rest && |xs| == n && All(fits, xs) && Map(norm, xs) == xs
    decreases n
  {
    if n > 0 {
      var (x, t) := read(s).value;
      ListFrom(write, read, norm, fits, t, n - 1);
      var (xs, rest) := ReadList(read, t, n - 1).value;
      assert ([x] + xs)[1..] == xs;
      Assoc(write(x), WriteList(write, xs), rest);
    }
  }

  lemma {:induction false} WriteListAppend<T>(write: T -> Bytes, xs: seq<T>, x: T)
    ensures WriteList(write, xs + [x]) == WriteList(write, xs) + write(x)
  {
    if xs == [] {
      assert [] + [x] == [x];
    } else {
      assert (xs + [x])[1..] == xs[1..] + [x];
      WriteListAppend(write, xs[1..], x);
      Assoc(write(xs[0]), WriteList(write, xs[1..]), write(x));
    }
  }

  /** Items already read, put in front of what is still to come. */
  function Prepend<T>(xs: seq<T>, r: Option<(seq<T>, Bytes)>): Option<(seq<T>, Bytes)> {
    match r
    case None => None
    case Some((ys, s)) => Some((xs + ys, s))
  }

  /** A reading loop that has read xs, with s and `left` items still to come. */
  ghost predicate Reading<T>(read: Bytes -> Option<(T, Bytes)>, start: Bytes, n: nat, xs: seq<T>, s: Bytes, left: nat) {
    ReadList(read, start, n) == Prepend(xs, ReadList(read, s, left))
  }

  lemma ReadingStarts<T>(read: Bytes -> Option<(T, Bytes)>, start: Bytes, n: nat)
    ensures Reading(read, start, n, [], start, n)
  {
    match ReadList(read, start, n)
    case None =>
    case Some((ys, t)) => assert [] + ys == ys;
  }

  /** One turn: the list cannot be read, or one more item has been. */
  lemma ReadingStep<T>(read: Bytes -> Option<(T, Bytes)>, start: Bytes, n: nat, xs: seq<T>, s: Bytes, left: nat)
    requires Reading(read, start, n, xs, s, left) && left > 0
    ensures match read(s)
      case None => ReadList(read, start, n) == None
      case Some((x, t)) => Reading(read, start, n, xs + [x], t, left - 1)
  {
    ReadListStep(read, xs, s, left);
  }

  lemma ReadingEnds<T>(read: Bytes -> Option<(T, Bytes)>, start: Bytes, n: nat, xs: seq<T>, s: Bytes)
    requires Reading(read, start, n, xs, s, 0)
    ensures ReadList(read, start, n) == Some((xs, s))
  {
    assert xs + [] == xs;
  }

  /** One turn of a reading loop. */
  lemma ReadListStep<T>(read: Bytes -> Option<(T, Bytes)>, xs: seq<T>, s: Bytes, n: nat)
    requires n > 0
    ensures Prepend(xs, ReadList(read, s, n)) ==
      match read(s)
      case None => None
      case Some((x, t)) => Prepend(xs + [x], ReadList(read, t, n - 1))
  {
    match read(s)
    case None =>
    case Some((x, t)) =>
      match ReadList(read, t, n - 1)
      case None =>
      case Some((ys, u)) => assert xs + ([x] + ys) == (xs + [x]) + ys;
  }
}
