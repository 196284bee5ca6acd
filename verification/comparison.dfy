/** The `Comparison` collection: the schema that decides which documents may
    be saved, the defaults it fills in, and the two store operations the
    server uses, `save` (create) and `find().sort({createdAt: -1})` (list). */
module ComparisonModel {
  import opened Values

  /** The fields handed to `new Comparison({...})`. Every value arrives as
      text or not at all; `year` is cast to a Number by the schema. Neither
      route ever supplies `createdAt`, but the schema accepts one. */
  datatype Draft = Draft(
    title: Option<string>,
    year: Option<string>,
    race: Option<string>,
    session: Option<string>,
    driver1: Option<string>,
    driver2: Option<string>,
    createdAt: Option<int>)

  /** A saved document; `id` stands for the `_id` the store assigns. */
  datatype Comparison = Comparison(
    id: nat,
    title: string,
    year: real,
    race: string,
    session: string,
    driver1: string,
    driver2: string,
    createdAt: int)

  /** The schema paths that carry a `required: true` validator. */
  datatype Path = TitlePath | YearPath | RacePath | SessionPath | Driver1Path | Driver2Path

  /** Everything a store call depends on besides the stored documents:
      whether the database can be reached, the clock reading `Date.now`
      would give, and the Number cast applied to `year` (left abstract). */
  datatype StoreEnv = StoreEnv(reachable: bool, now: int, castNumber: string -> Option<real>)

  /** The saved documents in insertion order, and the next identifier to hand out. */
  datatype Store = Store(records: seq<Comparison>, nextId: nat)

  datatype StoreError = ValidationError(paths: set<Path>) | StorageFault

  /** The collection before anything is saved. */
  const EmptyStore := Store([], 0)

  /** The value a draft gives for one required path. */
  function Given(d: Draft, p: Path): Option<string> {
    match p
    case TitlePath => d.title
    case YearPath => d.year
    case RacePath => d.race
    case SessionPath => d.session
    case Driver1Path => d.driver1
    case Driver2Path => d.driver2
  }

  /** The paths whose validation fails: a required value that is missing,
      or a `year` that does not cast to a Number. */
  function Problems(d: Draft, castNumber: string -> Option<real>): (ps: set<Path>)
    ensures forall p :: p in ps <==>
      Given(d, p).None? || (p == YearPath && castNumber(Given(d, p).value).None?)
  {
    (if d.title.None? then {TitlePath} else {})
    + (if d.year.None? || castNumber(d.year.value).None? then {YearPath} else {})
    + (if d.race.None? then {RacePath} else {})
    + (if d.session.None? then {SessionPath} else {})
    + (if d.driver1.None? then {Driver1Path} else {})
    + (if d.driver2.None? then {Driver2Path} else {})
  }

  /** A draft the schema accepts. */
  predicate Acceptable(d: Draft, castNumber: string -> Option<real>) {
    Problems(d, castNumber) == {}
  }

  /** The document an acceptable draft becomes once the store has given it an
      identifier; `createdAt` defaults to the current time. */
  function Materialize(d: Draft, id: nat, env: StoreEnv): Comparison
    requires Acceptable(d, env.castNumber)
  {
    assert forall p :: Given(d, p).Some?;
    Comparison(id, d.title.value, env.castNumber(d.year.value).value, d.race.value,
               d.session.value, d.driver1.value, d.driver2.value, d.createdAt.GetOr(env.now))
  }

  /** A saved document carries exactly what the draft gave it. */
  ghost predicate Carries(c: Comparison, d: Draft, env: StoreEnv) {
    && d.title == Some(c.title)
    && d.year.Some? && env.castNumber(d.year.value) == Some(c.year)
    && d.race == Some(c.race)
    && d.session == Some(c.session)
    && d.driver1 == Some(c.driver1)
    && d.driver2 == Some(c.driver2)
    && c.createdAt == (if d.createdAt.Some? then d.createdAt.value else env.now)
  }

  /** Identifiers below `nextId` have been handed out, each to one document. */
  ghost predicate Valid(s: Store) {
    && (forall i :: 0 <= i < |s.records| ==> s.records[i].id < s.nextId)
    && (forall i, j :: 0 <= i < j < |s.records| ==> s.records[i].id != s.records[j].id)
  }

  /** The empty collection satisfies the identifier invariant, so every store
      reached from it by saves does too (`CreatePreservesValid`). */
  lemma EmptyStoreValid()
    ensures Valid(EmptyStore)
    ensures ListRecent(EmptyStore, StoreEnv(true, 0, _ => None)) == Success([])
  {
  }

  /** `new Comparison(d).save()`: validation runs first, then the write,
      which fails when the database cannot be reached. Nothing is unique,
      so a draft equal to a saved one is saved again. */
  function Create(s: Store, d: Draft, env: StoreEnv): (r: Result<(Comparison, Store), StoreError>)
    ensures r.Failure? && r.error.ValidationError? <==> !Acceptable(d, env.castNumber)
    ensures r.Failure? && r.error.ValidationError? ==>
      r.error.paths == Problems(d, env.castNumber) && r.error.paths != {}
    ensures r.Failure? && r.error.StorageFault? <==> Acceptable(d, env.castNumber) && !env.reachable
    ensures r.Success? ==>
      && Carries(r.value.0, d, env)
      && r.value.0.id == s.nextId
      && r.value.1 == Store(s.records + [r.value.0], s.nextId + 1)
  {
    var problems := Problems(d, env.castNumber);
    if problems != {} then Failure(ValidationError(problems))
    else if !env.reachable then Failure(StorageFault)
    else
      var c := Materialize(d, s.nextId, env);
      Success((c, Store(s.records + [c], s.nextId + 1)))
  }

  /** Saving keeps identifiers unique, and the new one is not used by any
      earlier document. */
  lemma CreatePreservesValid(s: Store, d: Draft, env: StoreEnv)
    requires Valid(s)
    ensures Create(s, d, env).Success? ==>
      && Valid(Create(s, d, env).value.1)
      && forall i :: 0 <= i < |s.records| ==> s.records[i].id != Create(s, d, env).value.0.id
  {
  }

  /** Newest first: `createdAt` never increases along the sequence. */
  predicate NewestFirst(rs: seq<Comparison>) {
    forall i, j :: 0 <= i < j < |rs| ==> rs[i].createdAt >= rs[j].createdAt
  }

  /** Places `c` into a newest-first sequence, ahead of documents with the same time. */
  function InsertByRecency(c: Comparison, rs: seq<Comparison>): (r: seq<Comparison>)
    requires NewestFirst(rs)
    ensures NewestFirst(r)
    ensures multiset(r) == multiset(rs) + multiset{c}
    ensures forall x :: x in r ==> x == c || x in rs
  {
    if |rs| == 0 then [c]
    else if c.createdAt >= rs[0].createdAt then [c] + rs
    else
      var rest := InsertByRecency(c, rs[1..]);
      assert forall x :: x in rest ==> x.createdAt <= rs[0].createdAt by {
        forall x | x in rest ensures x.createdAt <= rs[0].createdAt {
          if x != c {
            var k :| 1 <= k < |rs| && rs[k] == x;
          }
        }
      }
      assert rs == [rs[0]] + rs[1..];
      [rs[0]] + rest
  }

  /** The order `find().sort({createdAt: -1})` returns: every document once,
      newest first. The store leaves the order of equal times open; this
      model keeps insertion order among them. */
  function SortByRecency(rs: seq<Comparison>): (r: seq<Comparison>)
    ensures NewestFirst(r)
    ensures multiset(r) == multiset(rs)
  {
    if |rs| == 0 then []
    else
      assert rs == [rs[0]] + rs[1..];
      InsertByRecency(rs[0], SortByRecency(rs[1..]))
  }

  /** `Comparison.find().sort({createdAt: -1})`. */
  function ListRecent(s: Store, env: StoreEnv): (r: Result<seq<Comparison>, StoreError>)
    ensures r.Failure? <==> !env.reachable
    ensures r.Failure? ==> r.error == StorageFault
    ensures r.Success? ==> NewestFirst(r.value) && multiset(r.value) == multiset(s.records)
  {
    if env.reachable then Success(SortByRecency(s.records)) else Failure(StorageFault)
  }
}
