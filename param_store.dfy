/** `SSMParameterStore`: reads parameters named `/<env><key>` from the AWS
    Systems Manager parameter store, one at a time or in batches of ten. The
    store is given as the map it holds. */
module ParameterStore {
  import opened Wrappers
  import opened Lists
  import opened PyDict

  /** The parameters the store holds: full name to value. */
  type Store = map<string, string>

  datatype Parameter = Parameter(name: string, value: string)

  /** `get_parameters(Names=names)['Parameters']`: the named parameters that
      exist, in the order they were asked for. */
  function GetParameters(store: Store, names: seq<string>): (r: seq<Parameter>)
    ensures |r| <= |names|
    ensures forall p :: p in r ==> p.name in store && p.value == store[p.name]
    decreases |names|
  {
    if names == [] then []
    else
      (if names[0] in store then [Parameter(names[0], store[names[0]])] else [])
        + GetParameters(store, names[1..])
  }

  /** The store answers with exactly the asked-for names it holds, each with
      its value. */
  lemma {:induction false} GetParametersMembers(store: Store, names: seq<string>)
    ensures forall p :: p in GetParameters(store, names) ==> p.name in names && p.name in store && p.value == store[p.name]
    ensures forall n :: n in names && n in store ==> Parameter(n, store[n]) in GetParameters(store, names)
    decreases |names|
  {
    if names != [] {
      GetParametersMembers(store, names[1..]);
      assert forall n :: n in names <==> n == names[0] || n in names[1..];
    }
  }

  lemma {:induction false} GetParametersConcat(store: Store, a: seq<string>, b: seq<string>)
    ensures GetParameters(store, a + b) == GetParameters(store, a) + GetParameters(store, b)
    decreases |a|
  {
    if a != [] {
      assert (a + b)[0] == a[0];
      assert (a + b)[1..] == a[1..] + b;
      GetParametersConcat(store, a[1..], b);
    } else {
      assert a + b == b;
    }
  }

  datatype StoreError =
    | ParameterNotFound(key: string, env: string)
    | NoParametersSpecified
    | RequiredNotFound(env: string, missing: set<string>)

  /** `f'/{env}{key}'`. */
  function Prefixed(env: string, key: string): (r: string)
    ensures Strip(env, r) == key
  {
    "/" + env + key
  }

  /** `name[len(env)+1:]`, empty when the name is not that long. */
  function Strip(env: string, name: string): (r: string)
    ensures |name| > |env| + 1 ==> name[..|env| + 1] + r == name
    ensures |name| <= |env| + 1 ==> r == ""
  {
    if |name| <= |env| + 1 then "" else name[|env| + 1..]
  }

  lemma PrefixedInjective(env: string, a: string, b: string)
    requires Prefixed(env, a) == Prefixed(env, b)
    ensures a == b
  {
    assert Strip(env, Prefixed(env, a)) == a;
  }

  /** `fetch(key, required)` once the store has answered. */
  function FetchResult(store: Store, env: string, key: string, required: bool): (r: Result<Option<string>, StoreError>)
    ensures r.Success? && r.value.Some? <==> Prefixed(env, key) in store
    ensures Prefixed(env, key) in store ==> r == Success(Some(store[Prefixed(env, key)]))
    ensures r.Failure? <==> required && Prefixed(env, key) !in store
    ensures r.Failure? ==> r.error == ParameterNotFound(key, env)
  {
    var response := GetParameters(store, [Prefixed(env, key)]);
    GetParametersMembers(store, [Prefixed(env, key)]);
    if response != [] then
      assert response[0] in response;
      Success(Some(response[0].value))
    else if !required then Success(None)
    else Failure(ParameterNotFound(key, env))
  }

  // ----- batches -----

  /** `[keys[i:i+10] for i in range(0, len(keys), 10)]`. */
  function Batches(keys: seq<string>): (r: seq<seq<string>>)
    ensures r == [] <==> keys == []
    decreases |keys|
  {
    if keys == [] then []
    else if |keys| <= 10 then [keys]
    else [keys[..10]] + Batches(keys[10..])
  }

  function Flatten(bs: seq<seq<string>>): seq<string>
    decreases |bs|
  {
    if bs == [] then [] else bs[0] + Flatten(bs[1..])
  }

  /** Every key is asked for exactly once, in order. */
  lemma {:induction false} BatchesFlatten(keys: seq<string>)
    ensures Flatten(Batches(keys)) == keys
    decreases |keys|
  {
    if |keys| > 10 {
      BatchesFlatten(keys[10..]);
      assert keys[..10] + keys[10..] == keys;
    } else if keys != [] {
      assert Flatten([keys]) == keys + Flatten([]);
    }
  }

  /** Each batch holds between one and ten keys, and there are ceil(n/10)
      of them. */
  lemma {:induction false} BatchesSizes(keys: seq<string>)
    ensures |Batches(keys)| == (|keys| + 9) / 10
    ensures forall i :: 0 <= i < |Batches(keys)| ==> 1 <= |Batches(keys)[i]| <= 10
    decreases |keys|
  {
    if |keys| > 10 {
      BatchesSizes(keys[10..]);
      var rest := Batches(keys[10..]);
      assert Batches(keys) == [keys[..10]] + rest;
      forall i | 0 <= i < |Batches(keys)| ensures 1 <= |Batches(keys)[i]| <= 10 {
        if i > 0 {
          assert Batches(keys)[i] == rest[i - 1];
        }
      }
    }
  }

  /** Only the last batch may be short: batch `i` starts at key `10 * i`. */
  lemma {:induction false} BatchAt(keys: seq<string>, i: nat)
    requires i < |Batches(keys)|
    ensures 10 * i < |keys|
    ensures Batches(keys)[i] == keys[10 * i .. if 10 * i + 10 <= |keys| then 10 * i + 10 else |keys|]
    decreases |keys|
  {
    BatchesSizes(keys);
    if i > 0 {
      BatchAt(keys[10..], i - 1);
      assert Batches(keys)[i] == Batches(keys[10..])[i - 1];
      var lo := 10 * (i - 1);
      var hi := if lo + 10 <= |keys| - 10 then lo + 10 else |keys| - 10;
      SliceOfSuffix(keys, 10, lo, hi);
    }
  }

  /** A slice of a suffix is a slice of the whole, shifted by the suffix's start. */
  lemma SliceOfSuffix<T>(s: seq<T>, k: nat, lo: nat, hi: nat)
    requires k <= |s| && lo <= hi <= |s| - k
    ensures s[k..][lo..hi] == s[k + lo .. k + hi]
  {
    forall j | 0 <= j < hi - lo
      ensures s[k..][lo..hi][j] == s[k + lo .. k + hi][j]
    {
    }
  }

  /** Twenty-three keys go out as 10, 10 and 3. */
  lemma TwentyThreeKeys(keys: seq<string>)
    requires |keys| == 23
    ensures Batches(keys) == [keys[..10], keys[10..20], keys[20..]]
  {
    assert Batches(keys) == [keys[..10]] + Batches(keys[10..]);
    assert keys[10..][..10] == keys[10..20];
    assert keys[10..][10..] == keys[20..];
    assert Batches(keys[10..]) == [keys[10..20]] + Batches(keys[20..]);
    assert Batches(keys[20..]) == [keys[20..]];
  }

  /** One step of the loop: the batch at `i` and the batches after it. */
  lemma BatchesStep(keys: seq<string>, i: nat)
    requires i < |keys|
    ensures Batches(keys[i..]) == [keys[i..if i + 10 <= |keys| then i + 10 else |keys|]]
                                  + Batches(keys[if i + 10 <= |keys| then i + 10 else |keys|..])
  {
    var j := if i + 10 <= |keys| then i + 10 else |keys|;
    if j == |keys| {
      assert keys[i..j] == keys[i..];
      assert keys[j..] == [];
    } else {
      assert keys[i..][..10] == keys[i..j];
      assert keys[i..][10..] == keys[j..];
    }
  }

  // ----- fetch_many -----

  /** The names of one request: `[f'/{env}{key}' for key in keys]`. */
  function PrefixAll(env: string, keys: seq<string>): (r: seq<string>)
    ensures |r| == |keys| && forall i :: 0 <= i < |keys| ==> r[i] == Prefixed(env, keys[i])
  {
    seq(|keys|, i requires 0 <= i < |keys| => Prefixed(env, keys[i]))
  }

  /** The names of all requests, batch by batch. */
  function PrefixBatches(env: string, bs: seq<seq<string>>): (r: seq<seq<string>>)
    ensures |r| == |bs| && forall i :: 0 <= i < |bs| ==> r[i] == PrefixAll(env, bs[i])
  {
    seq(|bs|, i requires 0 <= i < |bs| => PrefixAll(env, bs[i]))
  }

  lemma PrefixBatchesCons(env: string, b: seq<string>, bs: seq<seq<string>>)
    ensures PrefixBatches(env, [b] + bs) == [PrefixAll(env, b)] + PrefixBatches(env, bs)
  {
    assert PrefixBatches(env, [b] + bs)[1..] == PrefixBatches(env, bs);
  }

  /** `(param['Name'][len(env)+1:], param['Value'])` for each returned
      parameter. */
  function Entries(env: string, ps: seq<Parameter>): (r: seq<(string, string)>)
    ensures |r| == |ps| && forall i :: 0 <= i < |ps| ==> r[i] == (Strip(env, ps[i].name), ps[i].value)
  {
    seq(|ps|, i requires 0 <= i < |ps| => (Strip(env, ps[i].name), ps[i].value))
  }

  lemma EntriesSnoc(before: seq<(string, string)>, env: string, response: seq<Parameter>, n: nat)
    requires n < |response|
    ensures AssignAll(before + Entries(env, response[..n + 1]))
         == Assign(AssignAll(before + Entries(env, response[..n])), Strip(env, response[n].name), response[n].value)
  {
    assert before + Entries(env, response[..n + 1])
        == (before + Entries(env, response[..n])) + [(Strip(env, response[n].name), response[n].value)];
    AssignAllSnoc(before + Entries(env, response[..n]), (Strip(env, response[n].name), response[n].value));
  }

  /** The `(key, value)` pairs the store returns for `keys`, in order. */
  function Found(store: Store, env: string, keys: seq<string>): seq<(string, string)> {
    Entries(env, GetParameters(store, PrefixAll(env, keys)))
  }

  /** The `params` dict after every batch for `keys` has been stored. */
  function Collected(store: Store, env: string, keys: seq<string>): (r: Dict<string, string>)
    ensures Distinct(Keys(r))
  {
    AssignAllKeys(Found(store, env, keys));
    AssignAll(Found(store, env, keys))
  }

  lemma FoundConcat(store: Store, env: string, a: seq<string>, b: seq<string>)
    ensures Found(store, env, a + b) == Found(store, env, a) + Found(store, env, b)
  {
    assert PrefixAll(env, a + b) == PrefixAll(env, a) + PrefixAll(env, b);
    GetParametersConcat(store, PrefixAll(env, a), PrefixAll(env, b));
    EntriesConcat(env, GetParameters(store, PrefixAll(env, a)), GetParameters(store, PrefixAll(env, b)));
  }

  lemma EntriesConcat(env: string, x: seq<Parameter>, y: seq<Parameter>)
    ensures Entries(env, x + y) == Entries(env, x) + Entries(env, y)
  {
  }

  lemma FoundOne(store: Store, env: string, key: string)
    ensures Found(store, env, [key])
         == if Prefixed(env, key) in store then [(key, store[Prefixed(env, key)])] else []
  {
    assert PrefixAll(env, [key]) == [Prefixed(env, key)];
    assert GetParameters(store, [Prefixed(env, key)])
        == (if Prefixed(env, key) in store then [Parameter(Prefixed(env, key), store[Prefixed(env, key)])] else [])
           + GetParameters(store, []);
  }

  lemma {:induction false} LastValueConcat<V>(ps: seq<(string, V)>, qs: seq<(string, V)>, k: string)
    ensures LastValue(ps + qs, k) == if LastValue(qs, k).Some? then LastValue(qs, k) else LastValue(ps, k)
    decreases |qs|
  {
    if qs == [] {
      assert ps + qs == ps;
    } else {
      var n := |qs| - 1;
      assert (ps + qs)[..|ps + qs| - 1] == ps + qs[..n];
      assert (ps + qs)[|ps + qs| - 1] == qs[n];
      LastValueConcat(ps, qs[..n], k);
    }
  }

  lemma {:induction false} FoundLastValue(store: Store, env: string, keys: seq<string>, k: string)
    ensures LastValue(Found(store, env, keys), k)
         == if k in keys && Prefixed(env, k) in store then Some(store[Prefixed(env, k)]) else None
    decreases |keys|
  {
    if keys != [] {
      var n := |keys| - 1;
      var init := keys[..n];
      assert keys == init + [keys[n]];
      FoundLastValue(store, env, init, k);
      FoundConcat(store, env, init, [keys[n]]);
      FoundOne(store, env, keys[n]);
      LastValueConcat(Found(store, env, init), Found(store, env, [keys[n]]), k);
    }
  }

  /** A key is in the result exactly when it was asked for and the store
      has it, and it holds the store's value: nothing else is inserted. */
  lemma CollectedGet(store: Store, env: string, keys: seq<string>, k: string)
    ensures Get(Collected(store, env, keys), k)
         == if k in keys && Prefixed(env, k) in store then Some(store[Prefixed(env, k)]) else None
  {
    AssignAllGet(Found(store, env, keys), k);
    FoundLastValue(store, env, keys, k);
  }

  /** `required` and `optional` after `if not required: required = []`. */
  function OrEmpty(keys: Option<seq<string>>): seq<string> {
    if keys.Some? then keys.value else []
  }

  /** The keys of `required` that ended up with no value. */
  function MissingRequired(required: seq<string>, params: Dict<string, string>): (r: set<string>)
    ensures forall k :: k in r ==> k in required && Get(params, k).None?
    ensures r == {} <==> forall k :: k in required ==> Get(params, k).Some?
  {
    GetPresentAll(params);
    var missing := set k | k in required && k !in Keys(params);
    assert forall k :: k in required && k !in Keys(params) ==> k in missing;
    missing
  }

  /** What `fetch_many(required, optional)` returns or raises once every
      batch has been answered. */
  function FetchManyResult(store: Store, env: string, required: Option<seq<string>>, optional: Option<seq<string>>)
    : (r: Result<Dict<string, string>, StoreError>)
    ensures r.Failure? ==> r.error.NoParametersSpecified? || r.error.RequiredNotFound?
  {
    var keys := OrEmpty(required) + OrEmpty(optional);
    if keys == [] then Failure(NoParametersSpecified)
    else
      var params := Collected(store, env, keys);
      var missing := MissingRequired(OrEmpty(required), params);
      if missing != {} then Failure(RequiredNotFound(env, missing)) else Success(params)
  }

  /** `fetch_many` refuses an empty request; otherwise it returns what the
      store has for the keys, unless a required key is absent, in which
      case it reports exactly the absent required keys. */
  lemma FetchManyOutcome(store: Store, env: string, required: Option<seq<string>>, optional: Option<seq<string>>)
    ensures var r := FetchManyResult(store, env, required, optional);
            && (r == Failure(NoParametersSpecified) <==> OrEmpty(required) + OrEmpty(optional) == [])
            && (r.Success? ==> r.value == Collected(store, env, OrEmpty(required) + OrEmpty(optional)))
            && (r.Success? ==> forall k :: k in OrEmpty(required) ==> Prefixed(env, k) in store)
            && (r.Failure? && r.error != NoParametersSpecified ==>
                  r.error == RequiredNotFound(env, set k | k in OrEmpty(required) && Prefixed(env, k) !in store)
                  && r.error.missing != {})
  {
    var keys := OrEmpty(required) + OrEmpty(optional);
    if keys != [] {
      MissingIsAbsent(store, env, OrEmpty(required), keys, Collected(store, env, keys));
    }
  }

  /** A required key is missing exactly when the store does not have it. */
  lemma MissingIsAbsent(store: Store, env: string, required: seq<string>, keys: seq<string>, params: Dict<string, string>)
    requires params == Collected(store, env, keys)
    requires forall k :: k in required ==> k in keys
    ensures MissingRequired(required, params) == set k | k in required && Prefixed(env, k) !in store
    ensures MissingRequired(required, params) == {} ==> forall k :: k in required ==> Prefixed(env, k) in store
  {
    forall k | k in required
      ensures k in Keys(params) <==> Prefixed(env, k) in store
    {
      CollectedGet(store, env, keys, k);
      GetPresent(params, k);
    }
    if MissingRequired(required, params) == {} {
      forall k | k in required
        ensures Prefixed(env, k) in store
      {
        assert k !in MissingRequired(required, params);
      }
    }
  }

  /** A single `fetch` that is not required agrees with `fetch_many` of
      the same key as an optional key. */
  lemma FetchAgreesWithFetchMany(store: Store, env: string, key: string)
    ensures FetchManyResult(store, env, None, Some([key])).Success?
    ensures Get(FetchManyResult(store, env, None, Some([key])).value, key)
         == FetchResult(store, env, key, false).value
  {
    assert OrEmpty(None) + OrEmpty(Some([key])) == [key];
    assert MissingRequired([], Collected(store, env, [key])) == {};
    CollectedGet(store, env, [key], key);
  }

  /** One batch of the loop: the request for `keys[i:j]`, then the rest. */
  lemma RequestsStep(env: string, keys: seq<string>, i: nat)
    requires i < |keys|
    ensures var j := if i + 10 <= |keys| then i + 10 else |keys|;
            PrefixBatches(env, Batches(keys[i..])) == [PrefixAll(env, keys[i..j])] + PrefixBatches(env, Batches(keys[j..]))
  {
    var j := if i + 10 <= |keys| then i + 10 else |keys|;
    BatchesStep(keys, i);
    PrefixBatchesCons(env, keys[i..j], Batches(keys[j..]));
  }

  /** One batch of the loop: storing the answer for `keys[i:j]` extends the
      collected parameters from `keys[:i]` to `keys[:j]`. */
  lemma CollectedStep(store: Store, env: string, keys: seq<string>, i: nat, j: nat)
    requires i <= j <= |keys|
    ensures Collected(store, env, keys[..j])
         == AssignAll(Found(store, env, keys[..i]) + Entries(env, GetParameters(store, PrefixAll(env, keys[i..j]))))
  {
    assert keys[..j] == keys[..i] + keys[i..j];
    FoundConcat(store, env, keys[..i], keys[i..j]);
  }

  /** The inner loop of `fetch_many`: each returned parameter is stored
      under its name with the prefix cut off, in the order returned. */
  method StoreResponse(params: Dict<string, string>, ghost before: seq<(string, string)>, env: string, response: seq<Parameter>)
    returns (r: Dict<string, string>)
    requires params == AssignAll(before)
    ensures r == AssignAll(before + Entries(env, response))
  {
    r := params;
    assert before + Entries(env, response[..0]) == before;
    var n := 0;
    while n < |response|
      invariant 0 <= n <= |response|
      invariant r == AssignAll(before + Entries(env, response[..n]))
    {
      var name := Strip(env, response[n].name);
      EntriesSnoc(before, env, response, n);
      r := Assign(r, name, response[n].value);
      n := n + 1;
    }
    assert response[..n] == response;
  }

  class SSMParameterStore {
    /** `self._env`. */
    const env: string
    /** The parameters behind `self._ssm`. */
    const ssm: Store

    constructor (env: string, ssm: Store)
      ensures this.env == env && this.ssm == ssm
    {
      this.env := env;
      this.ssm := ssm;
    }

    /** `fetch(key, required)`: one request naming `/<env><key>`. */
    method Fetch(key: string, required: bool) returns (r: Result<Option<string>, StoreError>, request: seq<string>)
      ensures request == [Prefixed(env, key)]
      ensures r == FetchResult(ssm, env, key, required)
    {
      request := ["/" + env + key];
      var response := GetParameters(ssm, request);
      if response != [] {
        return Success(Some(response[0].value)), request;
      }
      if !required {
        return Success(None), request;
      }
      r := Failure(ParameterNotFound(key, env));
    }

    /** The loop of `fetch_many`: one request per batch of at most ten
        keys, in order, each answer stored in `params` as it comes. */
    method FetchBatches(keys: seq<string>) returns (params: Dict<string, string>, requests: seq<seq<string>>)
      ensures params == Collected(ssm, env, keys)
      ensures requests == PrefixBatches(env, Batches(keys))
    {
      params := [];
      requests := [];
      var i := 0;
      while i < |keys|
        invariant 0 <= i <= |keys|
        invariant requests + PrefixBatches(env, Batches(keys[i..])) == PrefixBatches(env, Batches(keys))
        invariant params == Collected(ssm, env, keys[..i])
      {
        var j := if i + 10 <= |keys| then i + 10 else |keys|;
        var names := PrefixAll(env, keys[i..j]);
        var response := GetParameters(ssm, names);
        RequestsStep(env, keys, i);
        requests := requests + [names];
        params := StoreResponse(params, Found(ssm, env, keys[..i]), env, response);
        CollectedStep(ssm, env, keys, i, j);
        i := j;
      }
      assert keys[..i] == keys;
      assert keys[i..] == [];
    }

    /** `fetch_many(required, optional)`, with the requests it sends: one per
        batch of at most ten keys, in order. The required check runs once,
        after the last batch. */
    method FetchMany(required: Option<seq<string>>, optional: Option<seq<string>>)
      returns (r: Result<Dict<string, string>, StoreError>, requests: seq<seq<string>>)
      ensures r == FetchManyResult(ssm, env, required, optional)
      ensures requests == PrefixBatches(env, Batches(OrEmpty(required) + OrEmpty(optional)))
    {
      var req := if required.None? || required.value == [] then [] else required.value;
      var opt := if optional.None? || optional.value == [] then [] else optional.value;
      var keys := req + opt;
      assert req == OrEmpty(required) && opt == OrEmpty(optional);
      requests := [];
      if keys == [] {
        return Failure(NoParametersSpecified), requests;
      }
      var params;
      params, requests := FetchBatches(keys);
      var missing := set k | k in req && k !in Keys(params);
      assert missing == MissingRequired(OrEmpty(required), params);
      if missing != {} {
        return Failure(RequiredNotFound(env, missing)), requests;
      }
      r := Success(params);
    }
  }
}
