/**
 The cache routines of DatabaseConnections: the user map keyed by auth
 identifier, the plugin table built from the converter's reply, the size of
 the connection pool, and the error counter that ends the process.
 */
module DatabaseConnections {
  import opened Nullable
  import opened Entities

  // ---------------------------------------------------------------------
  // Users
  // ---------------------------------------------------------------------

  /** The list element is a user with auth identifier `k`. */
  predicate HasAuth(u: Option<User>, k: string)
  {
    u.Some? && u.value.authIdentifier == Some(k)
  }

  /** No element before `i` is a user with the same auth identifier as `users[i]`. */
  predicate FirstWithAuth(users: seq<Option<User>>, i: int, k: string)
    requires 0 <= i < |users|
  {
    HasAuth(users[i], k) && forall j :: 0 <= j < i ==> !HasAuth(users[j], k)
  }

  /**
   The users with an auth identifier, keyed by it: `toMap` with a merge
   function that keeps the existing entry, so the first user listed wins.
   */
  function UserMap(users: seq<Option<User>>): (m: map<string, User>)
    ensures forall k :: k in m <==> exists i :: 0 <= i < |users| && HasAuth(users[i], k)
    ensures forall k :: k in m ==> m[k].authIdentifier == Some(k) && Some(m[k]) in users
    ensures forall i, k :: 0 <= i < |users| && FirstWithAuth(users, i, k) ==> k in m && m[k] == users[i].value
    decreases |users|
  {
    if |users| == 0 then map[]
    else
      var rest := UserMap(users[1..]);
      UserMapStep(users, rest);
      if users[0].Some? && users[0].value.authIdentifier.Some? then
        rest[users[0].value.authIdentifier.value := users[0].value]
      else rest
  }

  lemma UserMapStep(users: seq<Option<User>>, rest: map<string, User>)
    requires |users| > 0
    requires forall k :: k in rest <==> exists i :: 0 <= i < |users[1..]| && HasAuth(users[1..][i], k)
    requires forall k :: k in rest ==> rest[k].authIdentifier == Some(k) && Some(rest[k]) in users[1..]
    requires forall i, k :: 0 <= i < |users[1..]| && FirstWithAuth(users[1..], i, k) ==> k in rest && rest[k] == users[1..][i].value
    ensures var m := if users[0].Some? && users[0].value.authIdentifier.Some?
        then rest[users[0].value.authIdentifier.value := users[0].value] else rest;
      && (forall k :: k in m <==> exists i :: 0 <= i < |users| && HasAuth(users[i], k))
      && (forall k :: k in m ==> m[k].authIdentifier == Some(k) && Some(m[k]) in users)
      && (forall i, k :: 0 <= i < |users| && FirstWithAuth(users, i, k) ==> k in m && m[k] == users[i].value)
  {
    var m := if users[0].Some? && users[0].value.authIdentifier.Some?
      then rest[users[0].value.authIdentifier.value := users[0].value] else rest;
    forall k | k in m ensures exists i :: 0 <= i < |users| && HasAuth(users[i], k) {
      if !HasAuth(users[0], k) {
        var i :| 0 <= i < |users[1..]| && HasAuth(users[1..][i], k);
        assert users[i + 1] == users[1..][i];
      }
    }
    forall k | exists i :: 0 <= i < |users| && HasAuth(users[i], k) ensures k in m {
      var i :| 0 <= i < |users| && HasAuth(users[i], k);
      if i > 0 {
        assert users[1..][i - 1] == users[i];
      }
    }
    forall k | k in m ensures Some(m[k]) in users {
      if !HasAuth(users[0], k) {
        assert Some(rest[k]) in users[1..];
      }
    }
    forall i, k | 0 <= i < |users| && FirstWithAuth(users, i, k) ensures k in m && m[k] == users[i].value {
      if i > 0 {
        assert !HasAuth(users[0], k);
        assert users[1..][i - 1] == users[i];
        assert FirstWithAuth(users[1..], i - 1, k) by {
          forall j | 0 <= j < i - 1 ensures !HasAuth(users[1..][j], k) {
            assert users[1..][j] == users[j + 1];
          }
        }
      }
    }
  }

  /** `createSafeUserMap`: empty for a `null` or empty list; otherwise the first user per auth identifier. */
  function CreateSafeUserMap(userList: Option<seq<Option<User>>>): (m: map<string, User>)
    ensures !NonEmpty(userList) ==> m == map[]
    ensures forall k :: k in m <==> exists i :: 0 <= i < |Items(userList)| && HasAuth(Items(userList)[i], k)
    ensures forall k :: k in m ==> m[k].authIdentifier == Some(k) && Some(m[k]) in Items(userList)
    ensures forall i, k :: 0 <= i < |Items(userList)| && FirstWithAuth(Items(userList), i, k) ==> k in m && m[k] == Items(userList)[i].value
  {
    if !NonEmpty(userList) then map[]
    else
      assert Items(userList) == userList.value;
      UserMap(userList.value)
  }

  // ---------------------------------------------------------------------
  // Plugins
  // ---------------------------------------------------------------------

  /** The plugin table: each distribution id with its relation list, `null` when the reply gave none. */
  type PluginTable = map<string, Option<seq<PluginRelation>>>

  /** `HashMap.putIfAbsent`: stores `v` unless `k` already holds a non-null value. */
  function PutIfAbsent(m: PluginTable, k: string, v: Option<seq<PluginRelation>>): (r: PluginTable)
    ensures k in r && (k in m && m[k].Some? ==> r[k] == m[k]) && (k !in m || m[k].None? ==> r[k] == v)
    ensures forall j :: j != k ==> (j in r <==> j in m) && (j in m ==> r[j] == m[j])
  {
    if k in m && m[k].Some? then m else m[k := v]
  }

  /** Some plugin of the list is for distribution `k`. */
  predicate Listed(ps: seq<Plugin>, k: string)
  {
    exists i :: 0 <= i < |ps| && ps[i].distributionId == k
  }

  /** Some plugin of the list is for distribution `k` and has relations. */
  predicate ListedWithRelations(ps: seq<Plugin>, k: string)
  {
    exists i :: 0 <= i < |ps| && ps[i].distributionId == k && ps[i].relations.Some?
  }

  /** `ps[i]` is the first plugin for its distribution that has relations. */
  predicate FirstWithRelations(ps: seq<Plugin>, i: int)
    requires 0 <= i < |ps|
  {
    ps[i].relations.Some? && forall j :: 0 <= j < i && ps[j].distributionId == ps[i].distributionId ==> ps[j].relations.None?
  }

  /**
   The `putIfAbsent` loop over the plugins, in order: every listed
   distribution is a key, and it holds the relations of the first plugin for
   it that has any; a later plugin never replaces them.
   */
  function MergePlugins(ps: seq<Plugin>): (r: PluginTable)
    ensures forall k :: k in r <==> Listed(ps, k)
    ensures forall k :: k in r ==> (r[k].Some? <==> ListedWithRelations(ps, k))
    ensures forall i :: 0 <= i < |ps| && FirstWithRelations(ps, i) ==> ps[i].distributionId in r && r[ps[i].distributionId] == ps[i].relations
    decreases |ps|
  {
    if |ps| == 0 then map[]
    else
      var init := ps[..|ps| - 1];
      var last := ps[|ps| - 1];
      var before := MergePlugins(init);
      MergeStep(ps, init, before);
      PutIfAbsent(before, last.distributionId, last.relations)
  }

  lemma MergeStep(ps: seq<Plugin>, init: seq<Plugin>, before: PluginTable)
    requires |ps| > 0 && init == ps[..|ps| - 1]
    requires forall k :: k in before <==> Listed(init, k)
    requires forall k :: k in before ==> (before[k].Some? <==> ListedWithRelations(init, k))
    requires forall i :: 0 <= i < |init| && FirstWithRelations(init, i) ==> init[i].distributionId in before && before[init[i].distributionId] == init[i].relations
    ensures var r := PutIfAbsent(before, ps[|ps| - 1].distributionId, ps[|ps| - 1].relations);
      && (forall k :: k in r <==> Listed(ps, k))
      && (forall k :: k in r ==> (r[k].Some? <==> ListedWithRelations(ps, k)))
      && (forall i :: 0 <= i < |ps| && FirstWithRelations(ps, i) ==> ps[i].distributionId in r && r[ps[i].distributionId] == ps[i].relations)
  {
    var last := ps[|ps| - 1];
    var r := PutIfAbsent(before, last.distributionId, last.relations);
    forall k ensures Listed(ps, k) <==> Listed(init, k) || k == last.distributionId {
      if Listed(ps, k) && k != last.distributionId {
        var i :| 0 <= i < |ps| && ps[i].distributionId == k;
        assert init[i] == ps[i];
      }
      if Listed(init, k) {
        var i :| 0 <= i < |init| && init[i].distributionId == k;
        assert ps[i] == init[i];
      }
    }
    forall k ensures ListedWithRelations(ps, k) <==> ListedWithRelations(init, k) || (k == last.distributionId && last.relations.Some?) {
      if ListedWithRelations(ps, k) && !(k == last.distributionId && last.relations.Some?) {
        var i :| 0 <= i < |ps| && ps[i].distributionId == k && ps[i].relations.Some?;
        assert init[i] == ps[i];
      }
      if ListedWithRelations(init, k) {
        var i :| 0 <= i < |init| && init[i].distributionId == k && init[i].relations.Some?;
        assert ps[i] == init[i];
      }
    }
    forall i | 0 <= i < |ps| && FirstWithRelations(ps, i) ensures ps[i].distributionId in r && r[ps[i].distributionId] == ps[i].relations {
      var k := ps[i].distributionId;
      if i < |ps| - 1 {
        assert init[i] == ps[i];
        assert FirstWithRelations(init, i) by {
          forall j | 0 <= j < i && init[j].distributionId == k ensures init[j].relations.None? {
            assert init[j] == ps[j];
          }
        }
        assert before[k] == ps[i].relations;
      } else {
        assert !ListedWithRelations(init, k) by {
          forall j | 0 <= j < |init| && init[j].distributionId == k ensures init[j].relations.None? {
            assert init[j] == ps[j];
          }
        }
      }
    }
  }

  /** The plugins of the converter's reply up to the first `null` element, where the loop stops with an exception. */
  function UpToNull(ps: seq<Option<Plugin>>): (r: seq<Plugin>)
    ensures |r| <= |ps|
    ensures forall i :: 0 <= i < |r| ==> ps[i] == Some(r[i])
    ensures |r| < |ps| ==> ps[|r|].None?
  {
    if |ps| == 0 || ps[0].None? then [] else [ps[0].value] + UpToNull(ps[1..])
  }

  /**
   `retrievePlugins`: an empty table when there is no reply or it does not
   parse (`reply` None); otherwise the merge of the plugins listed before the
   first `null` one, which throws inside the `try` and leaves the table as
   it stands. It never fails and never yields `null`.
   */
  function RetrievePlugins(reply: Option<seq<Option<Plugin>>>): (r: PluginTable)
    ensures reply.None? ==> r == map[]
    ensures reply.Some? && (forall i :: 0 <= i < |reply.value| ==> reply.value[i].Some?) ==>
      forall k :: k in r <==> exists i :: 0 <= i < |reply.value| && reply.value[i].value.distributionId == k
    ensures forall k :: k in r ==> exists i :: 0 <= i < |Items(reply)| && Items(reply)[i].Some? && Items(reply)[i].value.distributionId == k
    ensures reply.Some? ==> var ps := UpToNull(reply.value);
      && (forall k :: k in r <==> Listed(ps, k))
      && (forall k :: k in r ==> (r[k].Some? <==> ListedWithRelations(ps, k)))
      && (forall i :: 0 <= i < |ps| && FirstWithRelations(ps, i) ==>
            ps[i].distributionId in r && r[ps[i].distributionId] == ps[i].relations)
  {
    if reply.None? then map[]
    else
      var ps := UpToNull(reply.value);
      forall k | k in MergePlugins(ps)
        ensures exists i :: 0 <= i < |Items(reply)| && Items(reply)[i].Some? && Items(reply)[i].value.distributionId == k {
        var i :| 0 <= i < |ps| && ps[i].distributionId == k;
        assert Items(reply)[i] == Some(ps[i]);
      }
      if forall i :: 0 <= i < |reply.value| ==> reply.value[i].Some? then
        assert |ps| == |reply.value|;
        MergePlugins(ps)
      else MergePlugins(ps)
  }

  // ---------------------------------------------------------------------
  // Connection pool
  // ---------------------------------------------------------------------

  const DefaultMaxConnections := 18
  const MinInt := -0x8000_0000
  const MaxInt := 0x7fff_ffff

  predicate IsDigit(c: char)
  {
    '0' <= c <= '9'
  }

  predicate AllDigits(s: string)
  {
    forall i :: 0 <= i < |s| ==> IsDigit(s[i])
  }

  /** The value of a string of decimal digits, most significant first. */
  function DigitsValue(s: string): nat
    requires AllDigits(s)
  {
    if |s| == 0 then 0 else 10 * DigitsValue(s[..|s| - 1]) + (s[|s| - 1] as int - '0' as int)
  }

  /**
   `Integer.parseInt(s)`: an optional sign followed by one or more decimal
   digits whose value fits in 32 bits; anything else, `null` included, throws
   NumberFormatException.
   */
  function ParseInt(s: Option<string>): (r: Outcome<int>)
    ensures r.Ok? ==> MinInt <= r.value <= MaxInt
    ensures s.None? || s == Some("") || s == Some("-") || s == Some("+") ==> r.Thrown?
    ensures s.Some? && |s.value| > 0 && AllDigits(s.value) ==> (r.Ok? <==> DigitsValue(s.value) <= MaxInt)
  {
    if s.None? || |s.value| == 0 then Thrown("NumberFormatException")
    else
      var negative := s.value[0] == '-';
      var digits := if s.value[0] == '-' || s.value[0] == '+' then s.value[1..] else s.value;
      if |digits| == 0 || !AllDigits(digits) then Thrown("NumberFormatException")
      else
        var v: int := if negative then -(DigitsValue(digits) as int) else DigitsValue(digits);
        if v < MinInt || MaxInt < v then Thrown("NumberFormatException") else Ok(v)
  }

  /** The decimal digits of `n`, without leading zeros. */
  function Decimal(n: nat): (s: string)
    ensures |s| > 0 && AllDigits(s)
  {
    if n < 10 then [('0' as int + n) as char]
    else Decimal(n / 10) + [('0' as int + n % 10) as char]
  }

  /** `Integer.toString(n)` */
  function Show(n: int): string
  {
    if n < 0 then "-" + Decimal(-n) else Decimal(n)
  }

  lemma {:induction false} DecimalValue(n: nat)
    ensures DigitsValue(Decimal(n)) == n
  {
    if n >= 10 {
      DecimalValue(n / 10);
      var s := Decimal(n);
      assert s[..|s| - 1] == Decimal(n / 10);
    }
  }

  /** Parsing what `Integer.toString` prints gives the number back, for every 32-bit value. */
  lemma ParseShow(n: int)
    requires MinInt <= n <= MaxInt
    ensures ParseInt(Some(Show(n))) == Ok(n)
  {
    if n < 0 {
      DecimalValue(-n);
      assert ("-" + Decimal(-n))[1..] == Decimal(-n);
    } else {
      DecimalValue(n);
    }
  }

  /**
   The pool size read from `CONNECTION_POOL_MAX_SIZE`: the smaller of the
   parsed value and 18, or 18 when the variable is unset or does not parse.
   Nothing stops a zero or negative value.
   */
  function MaxDbConnections(env: Option<string>): (n: int)
    ensures n <= DefaultMaxConnections
    ensures ParseInt(env).Thrown? ==> n == DefaultMaxConnections
    ensures ParseInt(env).Ok? ==> (n == ParseInt(env).value <==> ParseInt(env).value <= DefaultMaxConnections)
    ensures ParseInt(env).Ok? ==> n == ParseInt(env).value || n == DefaultMaxConnections
  {
    match ParseInt(env)
    case Thrown(_) => DefaultMaxConnections
    case Ok(v) => if v < DefaultMaxConnections then v else DefaultMaxConnections
  }

  /** Setting the variable to any 32-bit number `k` gives a pool of `min(k, 18)`. */
  lemma MaxDbConnectionsOfNumber(k: int)
    requires MinInt <= k <= MaxInt
    ensures MaxDbConnections(Some(Show(k))) == (if k < DefaultMaxConnections then k else DefaultMaxConnections)
  {
    ParseShow(k);
  }

  // ---------------------------------------------------------------------
  // Error counter
  // ---------------------------------------------------------------------

  /** A guarded call's value and the error counter after it. */
  datatype Guarded<T> = Guarded(value: T, errors: nat)

  /**
   `createSafeFuture`: the supplier's value when it returns non-null;
   otherwise, on `null` or an exception, the default value, and the counter
   goes up by one.
   */
  function SafeCall<T>(result: Outcome<Option<T>>, default: T, errors: nat): (r: Guarded<T>)
    ensures r.errors == errors || r.errors == errors + 1
    ensures r.errors == errors + 1 <==> !(result.Ok? && result.value.Some?)
    ensures result.Ok? && result.value.Some? ==> r.value == result.value.value
    ensures !(result.Ok? && result.value.Some?) ==> r.value == default
  {
    match result
    case Ok(Some(v)) => Guarded(v, errors)
    case Ok(None) => Guarded(default, errors + 1)
    case Thrown(_) => Guarded(default, errors + 1)
  }

  /** The state a cache refresh leaves: the new plugin table, the counter, and whether the process exits. */
  datatype Refresh = Refresh(plugins: PluginTable, errors: nat, exits: bool)

  /**
   The plugin part of `syncDatabaseConnections` with the counter carried in
   from earlier refreshes (it is never reset): a pool of zero or fewer
   threads cannot be created; otherwise the guarded plugin call runs and the
   process exits once the counter has reached the pool size.
   */
  function Sync(poolSize: int, reply: Option<seq<Option<Plugin>>>, errors: nat): (r: Outcome<Refresh>)
    ensures r.Thrown? <==> poolSize <= 0
    ensures r.Ok? ==> r.value.plugins == RetrievePlugins(reply)
    ensures r.Ok? ==> r.value.errors == errors
    ensures r.Ok? ==> (r.value.exits <==> errors >= poolSize)
  {
    if poolSize <= 0 then Thrown("IllegalArgumentException")
    else
      var g := SafeCall(Ok(Some(RetrievePlugins(reply))), map[], errors);
      Ok(Refresh(g.value, g.errors, g.errors >= poolSize))
  }
}
