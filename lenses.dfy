/// An immutable lens: a getter that reads a focused part of a state and a
/// setter that builds a new state with that part replaced.  The laws a
/// well-behaved lens obeys are stated here as predicates; the library itself
/// never checks them.
module Lenses {

  /** A lens from a whole `S` onto a part `A`.  The setter is called `put`
      because `set` is a Dafny keyword. */
  datatype Lens<!S, !A> = Lens(get: S -> A, put: (A, S) -> S)

  /** Get-put: reading back what was just written yields it. */
  ghost predicate GetPut<S(!new), A(!new)>(l: Lens<S, A>) {
    forall a: A, s: S :: l.get(l.put(a, s)) == a
  }

  /** Put-get: writing back what was just read changes nothing. */
  ghost predicate PutGet<S(!new), A>(l: Lens<S, A>) {
    forall s: S :: l.put(l.get(s), s) == s
  }

  /** Put-put: a second write overrides the first. */
  ghost predicate PutPut<S(!new), A(!new)>(l: Lens<S, A>) {
    forall a1: A, a2: A, s: S :: l.put(a2, l.put(a1, s)) == l.put(a2, s)
  }

  ghost predicate Lawful<S(!new), A(!new)>(l: Lens<S, A>) {
    GetPut(l) && PutGet(l) && PutPut(l)
  }

  /** The lens factory: bundles a getter and a setter, with no side condition. */
  function MakeLens<S, A>(getter: S -> A, setter: (A, S) -> S): (l: Lens<S, A>)
    ensures l.get == getter && l.put == setter
  {
    Lens(getter, setter)
  }

  /** Reads the focused value.  On a put-get lens, writing it back changes
      nothing. */
  function View<S(!new), A(!new)>(l: Lens<S, A>, state: S): (r: A)
    ensures PutGet(l) ==> l.put(r, state) == state
  {
    l.get(state)
  }

  /** Replaces the focused value, giving a new state.  On a get-put lens the
      new state shows the new value; on a put-put lens any later write gives
      what it would have given on the old state. */
  function Set<S(!new), A(!new)>(l: Lens<S, A>, newValue: A, state: S): (r: S)
    ensures GetPut(l) ==> l.get(r) == newValue
    ensures PutPut(l) ==> forall a: A :: l.put(a, r) == l.put(a, state)
  {
    l.put(newValue, state)
  }

  lemma ViewOfMakeLens<S(!new), A(!new)>(getter: S -> A, setter: (A, S) -> S, state: S)
    ensures View(MakeLens(getter, setter), state) == getter(state)
  {
  }

  lemma SetOfMakeLens<S(!new), A(!new)>(getter: S -> A, setter: (A, S) -> S, newValue: A, state: S)
    ensures Set(MakeLens(getter, setter), newValue, state) == setter(newValue, state)
  {
  }

  /** For a lawful lens a write leaves the state unchanged exactly when it
      writes the value already there. */
  lemma SetIsIdentityIff<S(!new), A(!new)>(l: Lens<S, A>, a: A, s: S)
    requires GetPut(l) && PutGet(l)
    ensures Set(l, a, s) == s <==> View(l, s) == a
  {
  }

  /** The factory checks no law: a setter that ignores the new value is
      accepted, and the lens it gives breaks get-put. */
  lemma IgnoringSetterBreaksGetPut()
    ensures !GetPut(MakeLens((x: int) => x, (v: int, x: int) => x))
  {
    var l := MakeLens((x: int) => x, (v: int, x: int) => x);
    assert l.get(l.put(1, 0)) == 0;
  }
}
