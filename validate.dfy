// Validation of the user's property mapping against the Notion database:
// the mapping must name every required property, and every mapped id must
// be a property of the database with the expected type. Properties that can
// be recreated are recreated instead of being reported.
module Validate {
  import opened Wrappers
  import opened Entities
  import opened Tables
  import opened Stores
  import opened Context
  import opened PropLookup
  import opened ValidateConstants
  import opened NotionApi
  import Seqs

  datatype ValidationError = ValidationError(error: string, message: string)

  function MissingPropError(prop: string): ValidationError
  {
    ValidationError("prop_not_exist", "필수 속성인 " + prop + " 이(가) 없습니다")
  }

  function NotFoundError(userProp: string, id: Option<string>): ValidationError
  {
    ValidationError("prop_not_found", userProp + "에 해당하는 속성을 찾을 수 없습니다. (아이디: " + Interpolate(id) + ")")
  }

  function WrongTypeError(userProp: string, expected: PropType, actual: PropType): ValidationError
  {
    ValidationError("wrong_prop_type", userProp + " 속성의 유형이 올바르지 않습니다. (기대한 타입: " +
                                       TypeName(expected) + ", 실제 타입: " + TypeName(actual) + ")")
  }

  // ---- validateUserProps, as functions of the mapping ----

  /** What checking one property reports: a missing property that cannot be recreated. */
  function StepErrors(prop: string, props: NotionProps): seq<ValidationError>
  {
    if !PropSet(props, prop) && !IsAddable(prop) then [MissingPropError(prop)] else []
  }

  /** What checking one property recreates: a missing property that can be. */
  function StepRestores(prop: string, props: NotionProps): seq<string>
  {
    if !PropSet(props, prop) && IsAddable(prop) then [prop] else []
  }

  /** The errors the checks of `names` report, in order. */
  function UserPropErrors(names: seq<string>, props: NotionProps): (r: seq<ValidationError>)
    ensures |r| <= |names|
  {
    if |names| == 0 then []
    else UserPropErrors(names[..|names| - 1], props) + StepErrors(names[|names| - 1], props)
  }

  /** The properties the checks of `names` recreate, in order. */
  function UserPropRestores(names: seq<string>, props: NotionProps): (r: seq<string>)
    ensures |r| <= |names|
  {
    if |names| == 0 then []
    else UserPropRestores(names[..|names| - 1], props) + StepRestores(names[|names| - 1], props)
  }

  lemma UserPropStep(names: seq<string>, i: nat, props: NotionProps)
    requires i < |names|
    ensures UserPropErrors(names[..i + 1], props) == UserPropErrors(names[..i], props) + StepErrors(names[i], props)
    ensures UserPropRestores(names[..i + 1], props) == UserPropRestores(names[..i], props) + StepRestores(names[i], props)
  {
    assert names[..i + 1][..i] == names[..i];
  }

  /** The errors of one check of `first`, followed when `both` holds by one of `second`. */
  function ListsErrors(first: seq<string>, second: seq<string>, both: bool, props: NotionProps): seq<ValidationError>
  {
    UserPropErrors(first, props) + if both then UserPropErrors(second, props) else []
  }

  function ListsRestores(first: seq<string>, second: seq<string>, both: bool, props: NotionProps): seq<string>
  {
    UserPropRestores(first, props) + if both then UserPropRestores(second, props) else []
  }

  lemma SeqAssoc<T>(a: seq<T>, b: seq<T>, c: seq<T>)
    ensures a + b + c == a + (b + c)
  {
  }

  /** What validateUserProps reports: on the required properties, then on the additional ones when enabled. */
  function ValidateUserPropsErrors(props: NotionProps, syncAdditional: bool): seq<ValidationError>
  {
    ListsErrors(RequiredProps, AdditionalProps, syncAdditional, props)
  }

  /** What validateUserProps recreates. */
  function ValidateUserPropsRestores(props: NotionProps, syncAdditional: bool): seq<string>
  {
    ListsRestores(RequiredProps, AdditionalProps, syncAdditional, props)
  }

  lemma {:induction false} UserPropErrorsMembers(names: seq<string>, props: NotionProps)
    ensures forall e :: e in UserPropErrors(names, props) <==>
              exists p :: p in names && !PropSet(props, p) && !IsAddable(p) && e == MissingPropError(p)
  {
    if |names| > 0 {
      var init := names[..|names| - 1];
      UserPropErrorsMembers(init, props);
      assert names == init + [names[|names| - 1]];
    }
  }

  /**
   * validateUserProps reports exactly the missing title, calendar or date:
   * every other checked property can be recreated.
   */
  lemma UserPropErrorsAreUnaddable(props: NotionProps, syncAdditional: bool)
    ensures forall e :: e in ValidateUserPropsErrors(props, syncAdditional) <==>
              exists p :: p in ["title", "calendar", "date"] && !PropSet(props, p) && e == MissingPropError(p)
  {
    UserPropErrorsMembers(RequiredProps, props);
    UserPropErrorsMembers(AdditionalProps, props);
    forall p | p in RequiredProps
      ensures !IsAddable(p) <==> p in ["title", "calendar", "date"]
    {
      ListedIn(RequiredProps, p);
      UnaddableRequired(p);
    }
    forall p | p in AdditionalProps
      ensures IsAddable(p)
    {
      ListedIn(AdditionalProps, p);
      AdditionalAddable(p);
    }
  }

  // ---- validateNotionProps, as functions of the mapping and the schema ----

  /** What the check of one mapped property decides. */
  datatype PropCheck = Fine | Skip | Restore | Report(error: ValidationError)

  function CheckNotionProp(key: string, id: Option<string>, db: seq<DatabaseProperty>, syncAdditional: bool): (c: PropCheck)
    ensures c.Restore? ==> IsAddable(key)
  {
    match Seqs.Find(db, (p: DatabaseProperty) => Some(p.id) == id)
    case None =>
      if IsAdditional(key) && !syncAdditional then Skip
      else if IsAddable(key) then Restore
      else Report(NotFoundError(key, id))
    case Some(prop) =>
      if PropsTypeMap(key).Some? && prop.propType != PropsTypeMap(key).value then
        Report(WrongTypeError(key, PropsTypeMap(key).value, prop.propType))
      else Fine
  }

  function KeyErrors(key: string, props: NotionProps, db: seq<DatabaseProperty>, syncAdditional: bool): seq<ValidationError>
  {
    var c := CheckNotionProp(key, Seqs.Get(props, key), db, syncAdditional);
    if c.Report? then [c.error] else []
  }

  function KeyRestores(key: string, props: NotionProps, db: seq<DatabaseProperty>, syncAdditional: bool): seq<string>
  {
    if CheckNotionProp(key, Seqs.Get(props, key), db, syncAdditional).Restore? then [key] else []
  }

  /** The errors validateNotionProps reports for the keys `keys` of the mapping. */
  function NotionPropErrors(keys: seq<string>, props: NotionProps, db: seq<DatabaseProperty>, syncAdditional: bool)
    : (r: seq<ValidationError>)
    ensures |r| <= |keys|
  {
    if |keys| == 0 then []
    else NotionPropErrors(keys[..|keys| - 1], props, db, syncAdditional) + KeyErrors(keys[|keys| - 1], props, db, syncAdditional)
  }

  /** The properties validateNotionProps recreates for those keys. */
  function NotionPropRestores(keys: seq<string>, props: NotionProps, db: seq<DatabaseProperty>, syncAdditional: bool)
    : seq<string>
  {
    if |keys| == 0 then []
    else NotionPropRestores(keys[..|keys| - 1], props, db, syncAdditional) + KeyRestores(keys[|keys| - 1], props, db, syncAdditional)
  }

  /** validateNotionProps only recreates properties that can be added. */
  lemma {:induction false} NotionPropRestoresAddable(keys: seq<string>, props: NotionProps, db: seq<DatabaseProperty>, syncAdditional: bool)
    ensures forall p :: p in NotionPropRestores(keys, props, db, syncAdditional) ==> IsAddable(p)
  {
    if |keys| > 0 {
      NotionPropRestoresAddable(keys[..|keys| - 1], props, db, syncAdditional);
    }
  }

  lemma NotionPropStep(keys: seq<string>, i: nat, props: NotionProps, db: seq<DatabaseProperty>, syncAdditional: bool)
    requires i < |keys|
    ensures NotionPropErrors(keys[..i + 1], props, db, syncAdditional) ==
            NotionPropErrors(keys[..i], props, db, syncAdditional) + KeyErrors(keys[i], props, db, syncAdditional)
    ensures NotionPropRestores(keys[..i + 1], props, db, syncAdditional) ==
            NotionPropRestores(keys[..i], props, db, syncAdditional) + KeyRestores(keys[i], props, db, syncAdditional)
  {
    assert keys[..i + 1][..i] == keys[..i];
  }

  /**
   * A mapped property of the expected type raises nothing; a missing one is
   * reported only when it cannot be recreated and is not a disabled
   * additional property; a present one of another type is always reported.
   */
  lemma CheckNotionPropCases(key: string, id: Option<string>, db: seq<DatabaseProperty>, syncAdditional: bool)
    ensures var found := Seqs.Find(db, (p: DatabaseProperty) => Some(p.id) == id);
            (found.Some? && (PropsTypeMap(key).None? || found.value.propType == PropsTypeMap(key).value) ==>
              CheckNotionProp(key, id, db, syncAdditional) == Fine) &&
            (found.Some? && PropsTypeMap(key).Some? && found.value.propType != PropsTypeMap(key).value ==>
              CheckNotionProp(key, id, db, syncAdditional) == Report(WrongTypeError(key, PropsTypeMap(key).value, found.value.propType))) &&
            (found.None? ==>
              (CheckNotionProp(key, id, db, syncAdditional).Report? <==>
                 !IsAddable(key) && !(IsAdditional(key) && !syncAdditional)))
  {
  }

  lemma {:induction false} NotionPropErrorsMembers(keys: seq<string>, props: NotionProps, db: seq<DatabaseProperty>, syncAdditional: bool)
    ensures forall e :: e in NotionPropErrors(keys, props, db, syncAdditional) <==>
              exists k :: k in keys && CheckNotionProp(k, Seqs.Get(props, k), db, syncAdditional) == Report(e)
  {
    if |keys| > 0 {
      var init := keys[..|keys| - 1];
      var last := keys[|keys| - 1];
      NotionPropErrorsMembers(init, props, db, syncAdditional);
      assert keys == init + [last];
      forall e | e in NotionPropErrors(keys, props, db, syncAdditional)
        ensures exists k :: k in keys && CheckNotionProp(k, Seqs.Get(props, k), db, syncAdditional) == Report(e)
      {
        if e in NotionPropErrors(init, props, db, syncAdditional) {
          var k :| k in init && CheckNotionProp(k, Seqs.Get(props, k), db, syncAdditional) == Report(e);
          assert k in keys;
        } else {
          assert last in keys;
        }
      }
      forall e | exists k :: k in keys && CheckNotionProp(k, Seqs.Get(props, k), db, syncAdditional) == Report(e)
        ensures e in NotionPropErrors(keys, props, db, syncAdditional)
      {
        var k :| k in keys && CheckNotionProp(k, Seqs.Get(props, k), db, syncAdditional) == Report(e);
        if k !in init {
          assert k == last;
        }
      }
    }
  }

  /**
   * Every error validateNotionProps reports comes from a key of the
   * mapping: a not-found one from a key that cannot be recreated, a
   * wrong-type one from a key whose property has another type.
   */
  lemma NotionPropErrorsOrigin(keys: seq<string>, props: NotionProps, db: seq<DatabaseProperty>, syncAdditional: bool)
    ensures forall e :: e in NotionPropErrors(keys, props, db, syncAdditional) ==>
              exists k :: k in keys &&
                ((e == NotFoundError(k, Seqs.Get(props, k)) && !IsAddable(k) &&
                  Seqs.Find(db, (p: DatabaseProperty) => Some(p.id) == Seqs.Get(props, k)).None?) ||
                 (PropsTypeMap(k).Some? &&
                  Seqs.Find(db, (p: DatabaseProperty) => Some(p.id) == Seqs.Get(props, k)).Some? &&
                  e == WrongTypeError(k, PropsTypeMap(k).value,
                                      Seqs.Find(db, (p: DatabaseProperty) => Some(p.id) == Seqs.Get(props, k)).value.propType)))
  {
    NotionPropErrorsMembers(keys, props, db, syncAdditional);
  }

  /** `errors.map(e => `${e.error}: ${e.message}`).join('\n')`. */
  function ErrorLines(errors: seq<ValidationError>): (r: seq<string>)
    ensures |r| == |errors|
    ensures forall k :: 0 <= k < |errors| ==> r[k] == errors[k].error + ": " + errors[k].message
  {
    seq(|errors|, (k: int) requires 0 <= k < |errors| => errors[k].error + ": " + errors[k].message)
  }

  // ---- the validation object ----

  /** `DB.user.update(id, {notionProps})` as a row update. */
  function WithNotionProps(props: NotionProps): User -> User
  {
    (u: User) => u.(notionProps := props)
  }

  // ---- the mapping after recreations ----

  /** Every one of `names` is the name of a property of the schema `db`. */
  predicate AllNamed(db: seq<DatabaseProperty>, names: seq<string>)
  {
    forall k :: 0 <= k < |names| ==> PropertyNamed(db, names[k]).Some?
  }

  /**
   * The mapping after the properties `names` were recreated in order:
   * each recreation maps its name to the id of the schema property of that
   * name and leaves the other keys as they are.
   */
  function Restamped(props: NotionProps, names: seq<string>, db: seq<DatabaseProperty>): NotionProps
  {
    if |names| == 0 then props
    else
      var before := Restamped(props, names[..|names| - 1], db);
      match PropertyNamed(db, names[|names| - 1])
      case Some(q) => Seqs.Put(before, names[|names| - 1], q.id)
      case None => before
  }

  /**
   * After recreations whose names are all in the schema, every recreated
   * key maps to the id of the schema property of that name, and every other
   * key keeps its old id.
   */
  lemma {:induction false} RestampedGet(props: NotionProps, names: seq<string>, db: seq<DatabaseProperty>, key: string)
    requires AllNamed(db, names)
    ensures Seqs.Get(Restamped(props, names, db), key) ==
              if key in names then Some(PropertyNamed(db, key).value.id) else Seqs.Get(props, key)
  {
    if |names| > 0 {
      var init, last := names[..|names| - 1], names[|names| - 1];
      assert names == init + [last];
      assert AllNamed(db, init) by {
        forall k | 0 <= k < |init| ensures PropertyNamed(db, init[k]).Some? { assert init[k] == names[k]; }
      }
      assert PropertyNamed(db, last).Some? by { assert last == names[|names| - 1]; }
      RestampedGet(props, init, db, key);
      Seqs.PutGet(Restamped(props, init, db), last, PropertyNamed(db, last).value.id, key);
    }
  }

  /** A property found by name in a schema is still the one found after properties are appended. */
  lemma PropertyNamedGrow(db: seq<DatabaseProperty>, db2: seq<DatabaseProperty>, name: string)
    requires db <= db2 && PropertyNamed(db, name).Some?
    ensures PropertyNamed(db2, name) == PropertyNamed(db, name)
  {
    var tail := db2[|db|..];
    assert db2 == db + tail;
    Seqs.FindAppend(db, tail, (p: DatabaseProperty) => p.name == name);
  }

  /** Recreations whose names are all in a schema mean the same once the schema has grown. */
  lemma {:induction false} RestampedGrow(props: NotionProps, names: seq<string>, db: seq<DatabaseProperty>,
                                         db2: seq<DatabaseProperty>)
    requires db <= db2 && AllNamed(db, names)
    ensures AllNamed(db2, names)
    ensures Restamped(props, names, db2) == Restamped(props, names, db)
  {
    forall k | 0 <= k < |names| ensures PropertyNamed(db2, names[k]) == PropertyNamed(db, names[k]) {
      PropertyNamedGrow(db, db2, names[k]);
    }
    if |names| > 0 {
      var init := names[..|names| - 1];
      assert AllNamed(db, init) by {
        forall k | 0 <= k < |init| ensures PropertyNamed(db, init[k]).Some? { assert init[k] == names[k]; }
      }
      RestampedGrow(props, init, db, db2);
    }
  }

  /** Recreating `a` and then `b` is recreating `a + b`. */
  lemma {:induction false} RestampedAppend(props: NotionProps, a: seq<string>, b: seq<string>, db: seq<DatabaseProperty>)
    ensures Restamped(props, a + b, db) == Restamped(Restamped(props, a, db), b, db)
  {
    if |b| == 0 {
      assert a + b == a;
    } else {
      var init := b[..|b| - 1];
      assert (a + b)[..|a + b| - 1] == a + init;
      assert (a + b)[|a + b| - 1] == b[|b| - 1];
      RestampedAppend(props, a, init, db);
    }
  }

  /**
   * One step of the validation loops: the mapping after recreations `r`
   * against the schema `db`, followed by recreations `s` against the grown
   * schema `db2`, is the mapping after `r + s` against `db2`.
   */
  lemma RestampedCompose(p0: NotionProps, r: seq<string>, s: seq<string>, db: seq<DatabaseProperty>,
                         db2: seq<DatabaseProperty>, p1: NotionProps, p2: NotionProps)
    requires db <= db2 && AllNamed(db, r) && p1 == Restamped(p0, r, db)
    requires AllNamed(db2, s) && p2 == Restamped(p1, s, db2)
    ensures AllNamed(db2, r + s) && p2 == Restamped(p0, r + s, db2)
  {
    RestampedGrow(p0, r, db, db2);
    RestampedAppend(p0, r, s, db2);
    forall k | 0 <= k < |r + s| ensures PropertyNamed(db2, (r + s)[k]).Some? {
      if k >= |r| { assert (r + s)[k] == s[k - |r|]; }
    }
  }

  /**
   * The users table after a validation stage: the user's row is rewritten
   * with the final mapping once something was recreated, and the table is
   * untouched otherwise.
   */
  predicate RowsAfter(before: map<int, User>, after: map<int, User>, id: int, anyRestored: bool, props: NotionProps)
  {
    after == if anyRestored then UpdateRow(before, id, WithNotionProps(props)) else before
  }

  /**
   * The effect of `run` on the mapping `p0`, validated against the schema
   * `db0` read at its start: `checked` is `p0` with the required and
   * additional properties recreated, `final` is `checked` with the keys
   * validateNotionProps recreated too (ids taken from the grown schema
   * `db`), and the user's row holds `final` once anything was recreated.
   */
  ghost predicate MappingAfterRun(p0: NotionProps, flag: bool, db0: seq<DatabaseProperty>, db: seq<DatabaseProperty>,
                                  checked: NotionProps, final: NotionProps,
                                  users0: map<int, User>, users: map<int, User>, id: int)
  {
    var userRestores := ValidateUserPropsRestores(p0, flag);
    var keyRestores := NotionPropRestores(Seqs.Keys(checked), checked, db0, flag);
    checked == Restamped(p0, userRestores, db) &&
    final == Restamped(checked, keyRestores, db) &&
    RowsAfter(users0, users, id, userRestores + keyRestores != [], final)
  }

  /** Two rewrites of the user's mapping leave the second one. */
  lemma RowsAfterCompose(u0: map<int, User>, u1: map<int, User>, u2: map<int, User>, id: int,
                         any1: bool, any2: bool, p1: NotionProps, p2: NotionProps)
    requires RowsAfter(u0, u1, id, any1, p1)
    requires RowsAfter(u1, u2, id, any2, p2) && (!any2 ==> p2 == p1)
    ensures RowsAfter(u0, u2, id, any1 || any2, p2)
  {
    if any1 && any2 {
      assert UpdateRow(u1, id, WithNotionProps(p2)) == UpdateRow(u0, id, WithNotionProps(p2));
    }
  }

  /**
   * The state after the recreations `rs`, starting from the mapping `p0`
   * and the users table `users0`: every recreated name is in the schema
   * `db`, the mapping `props` is `p0` with the recreations applied, and the
   * user's row holds `props` once anything was recreated.
   */
  ghost predicate RestoredFrom(p0: NotionProps, users0: map<int, User>, rs: seq<string>, db: seq<DatabaseProperty>,
                               props: NotionProps, users: map<int, User>, id: int)
  {
    AllNamed(db, rs) && props == Restamped(p0, rs, db) && RowsAfter(users0, users, id, rs != [], props)
  }

  /** Recreations `rs` followed by recreations `step` against a grown schema are the recreations `rs + step`. */
  lemma RestoredStep(p0: NotionProps, users0: map<int, User>, rs: seq<string>, step: seq<string>, id: int,
                     db1: seq<DatabaseProperty>, p1: NotionProps, u1: map<int, User>,
                     db2: seq<DatabaseProperty>, p2: NotionProps, u2: map<int, User>)
    requires RestoredFrom(p0, users0, rs, db1, p1, u1, id) && db1 <= db2
    requires RestoredFrom(p1, u1, step, db2, p2, u2, id)
    ensures RestoredFrom(p0, users0, rs + step, db2, p2, u2, id)
  {
    RestampedCompose(p0, rs, step, db1, db2, p1, p2);
    RowsAfterCompose(users0, u1, u2, id, rs != [], step != [], p1, p2);
  }

  class NotionValidation {
    /** The errors found so far. */
    var errors: seq<ValidationError>
    /** The schema read at the start of `run`; recreated properties are not in it. */
    var database: seq<DatabaseProperty>
    /** The properties recreated so far, in order. */
    ghost var restored: seq<string>
    /** The mapping validateNotionProps went through. */
    ghost var checkedProps: NotionProps

    constructor()
      ensures errors == [] && database == [] && restored == [] && checkedProps == []
    {
      errors := [];
      database := [];
      restored := [];
      checkedProps := [];
    }

    /**
     * `restoreProp(prop)`: the property is added to the database and the
     * id of the database property then named `prop` is mapped to it, in the
     * context and in the user's row.
     */
    method RestoreProp(ctx: WorkContext, store: Store, prop: string)
      requires ctx.user.Some? && IsAddable(prop)
      modifies ctx`user, store`users, store`database, store`notionRequests, this`restored
      ensures ctx.user.Some? && PropertyNamed(store.database, prop).Some?
      ensures ctx.user.value == old(ctx.user.value).(notionProps :=
                Seqs.Put(old(ctx.user.value.notionProps), prop, PropertyNamed(store.database, prop).value.id))
      ensures store.users == UpdateRow(old(store.users), ctx.user.value.id, WithNotionProps(ctx.user.value.notionProps))
      ensures old(store.database) <= store.database
      ensures restored == old(restored) + [prop]
    {
      AddableTypeMapKeys(prop);
      var t := AddableTypeMap(prop).value;
      var newProp, _ := AddProp(store, prop, t);
      var newProps := Seqs.Put(ctx.user.value.notionProps, prop, newProp.id);
      ctx.user := Some(ctx.user.value.(notionProps := newProps));
      store.users := UpdateRow(store.users, ctx.user.value.id, WithNotionProps(newProps));
      restored := restored + [prop];
    }

    /** The body of a validateUserProps loop for one property: recreate it, report it, or nothing. */
    method CheckUserProp(ctx: WorkContext, store: Store, prop: string, userProps: NotionProps)
      requires ctx.user.Some?
      modifies ctx`user, store`users, store`database, store`notionRequests, this`restored, this`errors
      ensures ctx.user.Some? && ctx.user.value == old(ctx.user.value).(notionProps := ctx.user.value.notionProps)
      ensures errors == old(errors) + StepErrors(prop, userProps)
      ensures restored == old(restored) + StepRestores(prop, userProps)
      ensures old(store.database) <= store.database
      ensures RestoredFrom(old(ctx.user.value.notionProps), old(store.users), StepRestores(prop, userProps),
                           store.database, ctx.user.value.notionProps, store.users, ctx.user.value.id)
    {
      if !PropSet(userProps, prop) {
        if IsAddable(prop) {
          RestoreProp(ctx, store, prop);
          assert [prop][..0] == [];
        } else {
          errors := errors + [MissingPropError(prop)];
        }
      }
    }

    /** One loop of validateUserProps over `names`, against the mapping `userProps` read before it. */
    method CheckUserProps(ctx: WorkContext, store: Store, names: seq<string>, userProps: NotionProps)
      requires ctx.user.Some?
      modifies ctx`user, store`users, store`database, store`notionRequests, this`restored, this`errors
      ensures ctx.user.Some? && ctx.user.value == old(ctx.user.value).(notionProps := ctx.user.value.notionProps)
      ensures errors == old(errors) + UserPropErrors(names, userProps)
      ensures restored == old(restored) + UserPropRestores(names, userProps)
      ensures old(store.database) <= store.database
      ensures RestoredFrom(old(ctx.user.value.notionProps), old(store.users), UserPropRestores(names, userProps),
                           store.database, ctx.user.value.notionProps, store.users, ctx.user.value.id)
    {
      ghost var p0, users0 := ctx.user.value.notionProps, store.users;
      var i := 0;
      ghost var rs: seq<string> := [];
      while i < |names|
        invariant 0 <= i <= |names|
        invariant ctx.user.Some? && ctx.user.value == old(ctx.user.value).(notionProps := ctx.user.value.notionProps)
        invariant rs == UserPropRestores(names[..i], userProps)
        invariant errors == old(errors) + UserPropErrors(names[..i], userProps)
        invariant restored == old(restored) + rs
        invariant old(store.database) <= store.database
        invariant RestoredFrom(p0, users0, rs, store.database, ctx.user.value.notionProps, store.users, ctx.user.value.id)
      {
        ghost var p1, db1, u1 := ctx.user.value.notionProps, store.database, store.users;
        ghost var step := StepRestores(names[i], userProps);
        CheckUserProp(ctx, store, names[i], userProps);
        UserPropStep(names, i, userProps);
        RestoredStep(p0, users0, rs, step, ctx.user.value.id, db1, p1, u1,
                     store.database, ctx.user.value.notionProps, store.users);
        SeqAssoc(old(errors), UserPropErrors(names[..i], userProps), StepErrors(names[i], userProps));
        SeqAssoc(old(restored), rs, step);
        rs := rs + step;
        i := i + 1;
      }
      assert names[..i] == names;
    }

    /** The first list of properties, then the second one when `both` holds. */
    method CheckUserPropLists(ctx: WorkContext, store: Store, first: seq<string>, second: seq<string>, both: bool,
                              userProps: NotionProps)
      requires ctx.user.Some?
      modifies ctx`user, store`users, store`database, store`notionRequests, this`restored, this`errors
      ensures ctx.user.Some? && ctx.user.value == old(ctx.user.value).(notionProps := ctx.user.value.notionProps)
      ensures errors == old(errors) + ListsErrors(first, second, both, userProps)
      ensures restored == old(restored) + ListsRestores(first, second, both, userProps)
      ensures old(store.database) <= store.database
      ensures RestoredFrom(old(ctx.user.value.notionProps), old(store.users),
                           ListsRestores(first, second, both, userProps),
                           store.database, ctx.user.value.notionProps, store.users, ctx.user.value.id)
    {
      ghost var errors0, restored0 := errors, restored;
      CheckUserProps(ctx, store, first, userProps);
      if both {
        ghost var p1, db1, u1 := ctx.user.value.notionProps, store.database, store.users;
        CheckUserProps(ctx, store, second, userProps);
        RestoredStep(old(ctx.user.value.notionProps), old(store.users), UserPropRestores(first, userProps),
                     UserPropRestores(second, userProps), ctx.user.value.id, db1, p1, u1,
                     store.database, ctx.user.value.notionProps, store.users);
        SeqAssoc(errors0, UserPropErrors(first, userProps), UserPropErrors(second, userProps));
        SeqAssoc(restored0, UserPropRestores(first, userProps), UserPropRestores(second, userProps));
      } else {
        assert UserPropErrors(first, userProps) + [] == UserPropErrors(first, userProps);
        assert UserPropRestores(first, userProps) + [] == UserPropRestores(first, userProps);
      }
    }

    /** `validateUserProps`: the required properties, then the additional ones when enabled. */
    method ValidateUserProps(ctx: WorkContext, store: Store)
      requires ctx.user.Some?
      modifies ctx`user, store`users, store`database, store`notionRequests, this`restored, this`errors
      ensures ctx.user.Some? && ctx.user.value == old(ctx.user.value).(notionProps := ctx.user.value.notionProps)
      ensures errors == old(errors) +
                ValidateUserPropsErrors(old(ctx.user.value.notionProps), old(ctx.user.value.isSyncAdditionalProps))
      ensures restored == old(restored) +
                ValidateUserPropsRestores(old(ctx.user.value.notionProps), old(ctx.user.value.isSyncAdditionalProps))
      ensures old(store.database) <= store.database
      ensures RestoredFrom(old(ctx.user.value.notionProps), old(store.users),
                           ValidateUserPropsRestores(old(ctx.user.value.notionProps),
                                                     old(ctx.user.value.isSyncAdditionalProps)),
                           store.database, ctx.user.value.notionProps, store.users, ctx.user.value.id)
    {
      CheckUserPropLists(ctx, store, RequiredProps, AdditionalProps, ctx.user.value.isSyncAdditionalProps,
                         ctx.user.value.notionProps);
    }

    /** The body of the validateNotionProps loop for one key. */
    method CheckNotionKey(ctx: WorkContext, store: Store, key: string, userProps: NotionProps, flag: bool)
      requires ctx.user.Some?
      modifies ctx`user, store`users, store`database, store`notionRequests, this`restored, this`errors
      ensures ctx.user.Some? && ctx.user.value == old(ctx.user.value).(notionProps := ctx.user.value.notionProps)
      ensures errors == old(errors) + KeyErrors(key, userProps, database, flag)
      ensures restored == old(restored) + KeyRestores(key, userProps, database, flag)
      ensures old(store.database) <= store.database
      ensures RestoredFrom(old(ctx.user.value.notionProps), old(store.users),
                           KeyRestores(key, userProps, database, flag),
                           store.database, ctx.user.value.notionProps, store.users, ctx.user.value.id)
    {
      match CheckNotionProp(key, Seqs.Get(userProps, key), database, flag) {
        case Fine =>
        case Skip =>
        case Restore =>
          RestoreProp(ctx, store, key);
          assert [key][..0] == [];
        case Report(e) =>
          errors := errors + [e];
      }
    }

    /** The validateNotionProps loop over `keys`, against the mapping `userProps` read before it. */
    /** One turn of the validateNotionProps loop: the key at `i`, after those before it. */
    method CheckNotionKeyAt(ctx: WorkContext, store: Store, keys: seq<string>, i: nat, userProps: NotionProps,
                            flag: bool, ghost p0: NotionProps, ghost users0: map<int, User>,
                            ghost errors0: seq<ValidationError>, ghost restored0: seq<string>)
      requires ctx.user.Some? && i < |keys|
      requires errors == errors0 + NotionPropErrors(keys[..i], userProps, database, flag)
      requires restored == restored0 + NotionPropRestores(keys[..i], userProps, database, flag)
      requires RestoredFrom(p0, users0, NotionPropRestores(keys[..i], userProps, database, flag),
                            store.database, ctx.user.value.notionProps, store.users, ctx.user.value.id)
      modifies ctx`user, store`users, store`database, store`notionRequests, this`restored, this`errors
      ensures ctx.user.Some? && ctx.user.value == old(ctx.user.value).(notionProps := ctx.user.value.notionProps)
      ensures errors == errors0 + NotionPropErrors(keys[..i + 1], userProps, database, flag)
      ensures restored == restored0 + NotionPropRestores(keys[..i + 1], userProps, database, flag)
      ensures old(store.database) <= store.database
      ensures RestoredFrom(p0, users0, NotionPropRestores(keys[..i + 1], userProps, database, flag),
                           store.database, ctx.user.value.notionProps, store.users, ctx.user.value.id)
    {
      ghost var rs := NotionPropRestores(keys[..i], userProps, database, flag);
      ghost var p1, db1, u1 := ctx.user.value.notionProps, store.database, store.users;
      ghost var step := KeyRestores(keys[i], userProps, database, flag);
      CheckNotionKey(ctx, store, keys[i], userProps, flag);
      NotionPropStep(keys, i, userProps, database, flag);
      RestoredStep(p0, users0, rs, step, ctx.user.value.id, db1, p1, u1,
                   store.database, ctx.user.value.notionProps, store.users);
      SeqAssoc(errors0, NotionPropErrors(keys[..i], userProps, database, flag),
               KeyErrors(keys[i], userProps, database, flag));
      SeqAssoc(restored0, rs, step);
    }

    method CheckNotionKeys(ctx: WorkContext, store: Store, keys: seq<string>, userProps: NotionProps, flag: bool)
      requires ctx.user.Some?
      modifies ctx`user, store`users, store`database, store`notionRequests, this`restored, this`errors
      ensures ctx.user.Some? && ctx.user.value == old(ctx.user.value).(notionProps := ctx.user.value.notionProps)
      ensures errors == old(errors) + NotionPropErrors(keys, userProps, database, flag)
      ensures restored == old(restored) + NotionPropRestores(keys, userProps, database, flag)
      ensures old(store.database) <= store.database
      ensures RestoredFrom(old(ctx.user.value.notionProps), old(store.users),
                           NotionPropRestores(keys, userProps, database, flag),
                           store.database, ctx.user.value.notionProps, store.users, ctx.user.value.id)
    {
      var i := 0;
      while i < |keys|
        invariant 0 <= i <= |keys|
        invariant ctx.user.Some? && ctx.user.value == old(ctx.user.value).(notionProps := ctx.user.value.notionProps)
        invariant errors == old(errors) + NotionPropErrors(keys[..i], userProps, database, flag)
        invariant restored == old(restored) + NotionPropRestores(keys[..i], userProps, database, flag)
        invariant old(store.database) <= store.database
        invariant RestoredFrom(old(ctx.user.value.notionProps), old(store.users),
                               NotionPropRestores(keys[..i], userProps, database, flag),
                               store.database, ctx.user.value.notionProps, store.users, ctx.user.value.id)
      {
        CheckNotionKeyAt(ctx, store, keys, i, userProps, flag,
                         old(ctx.user.value.notionProps), old(store.users), old(errors), old(restored));
        i := i + 1;
      }
      assert keys[..i] == keys;
    }

    /**
     * `validateNotionProps`: every key of the mapping, read once before the
     * loop, is looked up by id in the schema read at the start of `run`.
     */
    method ValidateNotionProps(ctx: WorkContext, store: Store)
      requires ctx.user.Some?
      modifies ctx`user, store`users, store`database, store`notionRequests, this`restored, this`errors, this`checkedProps
      ensures ctx.user.Some? && ctx.user.value == old(ctx.user.value).(notionProps := ctx.user.value.notionProps)
      ensures checkedProps == old(ctx.user.value.notionProps)
      ensures errors == old(errors) + NotionPropErrors(Seqs.Keys(checkedProps), checkedProps, database,
                                                       old(ctx.user.value.isSyncAdditionalProps))
      ensures restored == old(restored) + NotionPropRestores(Seqs.Keys(checkedProps), checkedProps, database,
                                                             old(ctx.user.value.isSyncAdditionalProps))
      ensures old(store.database) <= store.database
      ensures RestoredFrom(checkedProps, old(store.users),
                           NotionPropRestores(Seqs.Keys(checkedProps), checkedProps, database,
                                              old(ctx.user.value.isSyncAdditionalProps)),
                           store.database, ctx.user.value.notionProps, store.users, ctx.user.value.id)
    {
      var userProps := ctx.user.value.notionProps;
      checkedProps := userProps;
      CheckNotionKeys(ctx, store, Seqs.Keys(userProps), userProps, ctx.user.value.isSyncAdditionalProps);
    }

    /** `run`: the schema is read once, then both checks run; the errors are returned. */
    method Run(ctx: WorkContext, store: Store) returns (r: seq<ValidationError>)
      requires ctx.user.Some?
      modifies ctx`user, store`users, store`database, store`notionRequests, this`restored, this`errors,
               this`checkedProps, this`database
      ensures ctx.user.Some? && ctx.user.value == old(ctx.user.value).(notionProps := ctx.user.value.notionProps)
      ensures database == old(store.database)
      ensures r == errors
      ensures errors == old(errors) +
                ValidateUserPropsErrors(old(ctx.user.value.notionProps), old(ctx.user.value.isSyncAdditionalProps)) +
                NotionPropErrors(Seqs.Keys(checkedProps), checkedProps, old(store.database),
                                 old(ctx.user.value.isSyncAdditionalProps))
      ensures old(store.database) <= store.database
      ensures restored == old(restored) +
                ValidateUserPropsRestores(old(ctx.user.value.notionProps), old(ctx.user.value.isSyncAdditionalProps)) +
                NotionPropRestores(Seqs.Keys(checkedProps), checkedProps, old(store.database),
                                   old(ctx.user.value.isSyncAdditionalProps))
      ensures MappingAfterRun(old(ctx.user.value.notionProps), old(ctx.user.value.isSyncAdditionalProps),
                              old(store.database), store.database, checkedProps, ctx.user.value.notionProps,
                              old(store.users), store.users, ctx.user.value.id)
    {
      database := store.database;
      ValidateUserProps(ctx, store);
      ghost var mid, dbMid, usersMid := ctx.user.value.notionProps, store.database, store.users;
      ValidateNotionProps(ctx, store);
      r := errors;
      ghost var flag := old(ctx.user.value.isSyncAdditionalProps);
      ghost var userRestores := ValidateUserPropsRestores(old(ctx.user.value.notionProps), flag);
      ghost var keyRestores := NotionPropRestores(Seqs.Keys(checkedProps), checkedProps, database, flag);
      RestampedGrow(old(ctx.user.value.notionProps), userRestores, dbMid, store.database);
      RowsAfterCompose(old(store.users), usersMid, store.users, ctx.user.value.id, userRestores != [],
                       keyRestores != [], mid, ctx.user.value.notionProps);
      SeqAssoc(old(restored), userRestores, keyRestores);
    }
  }
}
