/// The record types and the concrete lenses that the lens tests build, the
/// hand-written composition `deepCityLens`, and `Over`, the read-transform-write
/// operation the tests expect of the library.
module UserLenses {
  import opened Lenses

  datatype Address = Address(city: string, zip: string)
  datatype User = User(name: string, address: Address)
  datatype Meta = Meta(created: string, modified: string)
  datatype DeepState = DeepState(user: User, meta: Meta)

  // ------------------------------------------------------ the concrete lenses

  /** Focuses a user's name; the setter copies the user with a new name. */
  function NameLens(): (l: Lens<User, string>)
    ensures forall u: User :: View(l, u) == u.name
    ensures forall newName: string, u: User :: Set(l, newName, u).address == u.address
    ensures Lawful(l)
  {
    MakeLens((u: User) => u.name, (newName: string, u: User) => u.(name := newName))
  }

  /** Focuses a user's city; the setter copies the user and its address. */
  function CityLens(): (l: Lens<User, string>)
    ensures forall u: User :: View(l, u) == u.address.city
    ensures forall newCity: string, u: User ::
      Set(l, newCity, u).name == u.name && Set(l, newCity, u).address.zip == u.address.zip
    ensures Lawful(l)
  {
    MakeLens(
      (u: User) => u.address.city,
      (newCity: string, u: User) => u.(address := u.address.(city := newCity)))
  }

  /** Focuses the user inside a deep state; the setter copies the state. */
  function UserLens(): (l: Lens<DeepState, User>)
    ensures forall st: DeepState :: View(l, st) == st.user
    ensures forall newUser: User, st: DeepState :: Set(l, newUser, st).meta == st.meta
    ensures Lawful(l)
  {
    MakeLens((st: DeepState) => st.user, (newUser: User, st: DeepState) => st.(user := newUser))
  }

  /** Focuses the city of the user inside a deep state, built by hand from
      `CityLens` and `UserLens`.  A write replaces `user.address.city` and
      nothing else. */
  function DeepCityLens(): (l: Lens<DeepState, string>)
    ensures forall st: DeepState :: View(l, st) == st.user.address.city
    ensures forall newCity: string, st: DeepState ::
      && Set(l, newCity, st).meta == st.meta
      && Set(l, newCity, st).user.name == st.user.name
      && Set(l, newCity, st).user.address.zip == st.user.address.zip
    ensures Lawful(l)
  {
    MakeLens(
      (st: DeepState) => View(CityLens(), st.user),
      (newCity: string, st: DeepState) => Set(UserLens(), Set(CityLens(), newCity, st.user), st))
  }

  // -------------------------------------------------------------- composition

  /** The general form of `DeepCityLens`: look through `outer`, then `inner`.
      Each law of the composite follows from laws of the parts. */
  function Compose<S(!new), B(!new), A(!new)>(outer: Lens<S, B>, inner: Lens<B, A>): (l: Lens<S, A>)
    ensures GetPut(outer) && GetPut(inner) ==> GetPut(l)
    ensures PutGet(outer) && PutGet(inner) ==> PutGet(l)
    ensures GetPut(outer) && PutPut(outer) && PutPut(inner) ==> PutPut(l)
  {
    MakeLens(
      (s: S) => View(inner, View(outer, s)),
      (a: A, s: S) => Set(outer, Set(inner, a, View(outer, s)), s))
  }

  /** `DeepCityLens` agrees with `CityLens` seen through `UserLens`. */
  lemma DeepCityIsComposition(st: DeepState, newCity: string)
    ensures View(DeepCityLens(), st) == View(Compose(UserLens(), CityLens()), st)
    ensures Set(DeepCityLens(), newCity, st) == Set(Compose(UserLens(), CityLens()), newCity, st)
  {
  }

  // --------------------------------------------------------------------- over

  /** Reads the focus, applies `f`, and writes the result back.  The tests
      import this from the lens library, which does not define it. */
  function Over<S(!new), A(!new)>(l: Lens<S, A>, f: A -> A, state: S): (r: S)
    ensures GetPut(l) ==> View(l, r) == f(View(l, state))
    ensures PutGet(l) && f(View(l, state)) == View(l, state) ==> r == state
  {
    Set(l, f(View(l, state)), state)
  }

  /** `Over` with the identity changes nothing on a put-get lens. */
  lemma OverIdentity<S(!new), A(!new)>(l: Lens<S, A>, state: S)
    requires PutGet(l)
    ensures Over(l, (a: A) => a, state) == state
  {
  }

  /** Two `Over` calls fuse into one with the composed function. */
  lemma OverFusion<S(!new), A(!new)>(l: Lens<S, A>, f: A -> A, g: A -> A, state: S)
    requires GetPut(l) && PutPut(l)
    ensures Over(l, g, Over(l, f, state)) == Over(l, (a: A) => g(f(a)), state)
  {
  }

  lemma OverNameLens(f: string -> string, u: User)
    ensures Over(NameLens(), f, u) == User(f(u.name), u.address)
  {
  }

  /** `Over` through `DeepCityLens` transforms the city and keeps `meta`, the
      name and the zip code. */
  lemma OverDeepCityLens(f: string -> string, st: DeepState)
    ensures Over(DeepCityLens(), f, st)
         == DeepState(User(st.user.name, Address(f(st.user.address.city), st.user.address.zip)), st.meta)
  {
  }

  // ---------------------------------------------------------------- fixtures

  /** The user of the flat tests. */
  function Alice(): (u: User) {
    User("Alice", Address("Wonderland", "12345"))
  }

  /** The state of the state-copying tests, holding the same user. */
  function AliceState(): (st: DeepState) {
    DeepState(Alice(), Meta("2023-01-01", "2024-01-01"))
  }

  lemma ViewAlice()
    ensures View(NameLens(), Alice()) == "Alice"
    ensures View(CityLens(), Alice()) == "Wonderland"
  {
  }

  lemma RenameAlice()
    ensures Set(NameLens(), "Gerald", Alice()) == User("Gerald", Address("Wonderland", "12345"))
  {
  }

  /** `upper` stands for upper-casing, which is given only on the input used. */
  lemma OverAlice(upper: string -> string)
    requires upper("Alice") == "ALICE"
    ensures Over(NameLens(), upper, Alice()) == User("ALICE", Address("Wonderland", "12345"))
  {
  }

  lemma OverAliceCity(upper: string -> string)
    requires upper("Wonderland") == "WONDERLAND"
    ensures Over(DeepCityLens(), upper, AliceState())
         == DeepState(User("Alice", Address("WONDERLAND", "12345")), Meta("2023-01-01", "2024-01-01"))
  {
  }

  lemma MoveAliceToOz()
    ensures Set(DeepCityLens(), "Oz", AliceState())
         == DeepState(User("Alice", Address("Oz", "12345")), Meta("2023-01-01", "2024-01-01"))
    ensures Set(DeepCityLens(), "Oz", AliceState()).user.address.city != AliceState().user.address.city
  {
  }

  // ------------------------------------- what makes the city setter lawful

  /** A city setter that rebuilds the address from scratch, taking the zip
      code from `zip`.  It does not occur in the tests; it shows what the copy
      of the address in `CityLens` has to preserve. */
  function RebuiltCityLens(zip: User -> string): Lens<User, string> {
    MakeLens(
      (u: User) => u.address.city,
      (newCity: string, u: User) => u.(address := Address(newCity, zip(u))))
  }

  /** The rebuilt city lens obeys put-get, and is lawful, exactly when it
      keeps every user's zip code. */
  lemma RebuiltCityLensLawfulIff(zip: User -> string)
    ensures PutGet(RebuiltCityLens(zip)) <==> forall u: User :: zip(u) == u.address.zip
    ensures Lawful(RebuiltCityLens(zip)) <==> forall u: User :: zip(u) == u.address.zip
  {
    var l := RebuiltCityLens(zip);
    if PutGet(l) {
      forall u: User ensures zip(u) == u.address.zip {
        assert l.put(l.get(u), u) == u;
      }
    }
  }
}
