/** Configuration-level logic: choosing the search method, the update and timestep accounting of
    `run_experiment`, and the environment keys of `learner_setup`. */
module Config {
  import Matrix

  datatype Result<T> = Ok(value: T) | Error(msg: string)

  /** The two tree searches the configuration can name. */
  datatype SearchMethod = MuZeroPolicy | GumbelMuZeroPolicy

  /** `str.lower()` on ASCII letters; every other character is kept. */
  function Lower(s: string): (r: string)
    ensures |r| == |s|
    ensures forall i :: 0 <= i < |s| ==>
      r[i] == if 'A' <= s[i] <= 'Z' then (s[i] as int + 32) as char else s[i]
  {
    seq(|s|, i requires 0 <= i < |s| => if 'A' <= s[i] <= 'Z' then (s[i] as int + 32) as char else s[i])
  }

  /** `parse_search_method`: "muzero" and "gumbel", in any letter case, select the two searches;
      anything else is rejected with a message that quotes the configured name as written. */
  function ParseSearchMethod(name: string): (r: Result<SearchMethod>)
  {
    if Lower(name) == "muzero" then Ok(MuZeroPolicy)
    else if Lower(name) == "gumbel" then Ok(GumbelMuZeroPolicy)
    else Error("Search method " + name + " not supported.")
  }

  /** The three outcomes of parsing, each with its exact condition. */
  lemma {:induction false} ParseSearchMethodCases(name: string)
    ensures ParseSearchMethod(name) == Ok(MuZeroPolicy) <==> Lower(name) == "muzero"
    ensures ParseSearchMethod(name) == Ok(GumbelMuZeroPolicy) <==> Lower(name) == "gumbel"
    ensures ParseSearchMethod(name).Error? <==> Lower(name) != "muzero" && Lower(name) != "gumbel"
    ensures ParseSearchMethod(name).Error? ==> ParseSearchMethod(name).msg == "Search method " + name + " not supported."
  {
  }

  /** Parsing ignores letter case: two names that lower to the same string select the same search. */
  lemma {:induction false} ParseSearchMethodCaseInsensitive(a: string, b: string)
    requires Lower(a) == Lower(b)
    ensures ParseSearchMethod(a).Ok? == ParseSearchMethod(b).Ok?
    ensures ParseSearchMethod(a).Ok? ==> ParseSearchMethod(a) == ParseSearchMethod(b)
  {
  }

  /** "MuZero" selects the MuZero search and "GUMBEL" the Gumbel one. */
  lemma {:induction false} ParseSearchMethodExamples()
    ensures ParseSearchMethod("MuZero") == Ok(MuZeroPolicy)
    ensures ParseSearchMethod("GUMBEL") == Ok(GumbelMuZeroPolicy)
  {
    var m := Lower("MuZero");
    assert m[0] == 'm' && m[1] == 'u' && m[2] == 'z' && m[3] == 'e' && m[4] == 'r' && m[5] == 'o';
    assert m == "muzero";
    var g := Lower("GUMBEL");
    assert g[0] == 'g' && g[1] == 'u' && g[2] == 'm' && g[3] == 'b' && g[4] == 'e' && g[5] == 'l';
    assert g == "gumbel";
    assert g != "muzero" by { assert g[0] != "muzero"[0]; }
  }

  /** Python's `//`: the quotient rounded towards negative infinity. */
  function FloorDiv(a: int, b: int): (q: int)
    requires b != 0
    ensures b > 0 ==> q * b <= a < q * b + b
    ensures b < 0 ==> q * b + b < a <= q * b
  {
    if b > 0 || a % b == 0 then a / b
    else a / b - 1
  }

  /** `num_updates_per_eval`: the run is rejected unless there are more updates than evaluations;
      an evaluation count of zero then fails in the division. */
  function UpdatesPerEval(numUpdates: int, numEvaluation: int): (r: Result<int>)
  {
    if !(numUpdates > numEvaluation) then
      Error("Number of updates per evaluation must be less than total number of updates.")
    else if numEvaluation == 0 then
      Error("integer division or modulo by zero")
    else
      Ok(FloorDiv(numUpdates, numEvaluation))
  }

  /** The accounting succeeds exactly when there are more updates than evaluations and at least
      one evaluation is asked for (or a negative count, which runs no evaluation); with a positive
      evaluation count every evaluation gets at least one update, and the updates left over are
      fewer than the evaluations. */
  lemma {:induction false} UpdatesPerEvalBounds(numUpdates: int, numEvaluation: int)
    ensures UpdatesPerEval(numUpdates, numEvaluation).Ok? <==> numUpdates > numEvaluation && numEvaluation != 0
    ensures UpdatesPerEval(numUpdates, numEvaluation).Ok? && numEvaluation > 0 ==>
      var k := UpdatesPerEval(numUpdates, numEvaluation).value;
      && k >= 1
      && k * numEvaluation <= numUpdates < k * numEvaluation + numEvaluation
  {
    if numUpdates > numEvaluation && numEvaluation > 0 {
      var k := FloorDiv(numUpdates, numEvaluation);
      assert (k + 1) * numEvaluation > numEvaluation;
    }
  }

  /** Environment steps per `learn` call, over every device, update batch row and environment. */
  function StepsPerRollout(devices: nat, updatesPerEval: int, rolloutLength: nat, updateBatchSize: nat, numEnvs: nat): int
  {
    devices * updatesPerEval * rolloutLength * updateBatchSize * numEnvs
  }

  /** The timestep logged at evaluation step `e`. */
  function LoggedTimestep(stepsPerRollout: int, e: nat): int
  {
    stepsPerRollout * (e + 1)
  }

  /** With every factor positive, a rollout counts at least one step, and the logged timesteps
      are the multiples of the rollout size, strictly increasing. */
  lemma {:induction false} LoggedTimestepIncreasing(devices: nat, updatesPerEval: int, rolloutLength: nat,
                                                    updateBatchSize: nat, numEnvs: nat, e: nat, e': nat)
    requires devices > 0 && updatesPerEval > 0 && rolloutLength > 0 && updateBatchSize > 0 && numEnvs > 0
    ensures StepsPerRollout(devices, updatesPerEval, rolloutLength, updateBatchSize, numEnvs) > 0
    ensures var s := StepsPerRollout(devices, updatesPerEval, rolloutLength, updateBatchSize, numEnvs);
            e < e' ==> LoggedTimestep(s, e) < LoggedTimestep(s, e')
  {
    var a := devices * updatesPerEval;
    assert a > 0;
    var b := a * rolloutLength;
    assert b > 0;
    var c := b * updateBatchSize;
    assert c > 0;
    var s := c * numEnvs;
    assert s > 0;
    if e < e' {
      assert s * (e' + 1) - s * (e + 1) == s * (e' - e);
    }
  }

  /** The number of keys split off for environment resets, plus the one kept. */
  function EnvKeyCount(devices: nat, updateBatchSize: nat, numEnvs: nat): nat
  {
    devices * updateBatchSize * numEnvs + 1
  }

  /** `k` consecutive pieces of `size` entries each. */
  function Chunks<T>(s: seq<T>, k: nat, size: nat): (r: seq<seq<T>>)
    requires |s| == k * size
    ensures |r| == k && forall i :: 0 <= i < k ==> |r[i]| == size
    decreases k
  {
    if k == 0 then []
    else
      assert |s[size..]| == (k - 1) * size;
      [s[..size]] + Chunks(s[size..], k - 1, size)
  }

  /** Entry `j` of piece `i` is entry `i * size + j` of the whole. */
  lemma {:induction false} ChunksAt<T>(s: seq<T>, k: nat, size: nat, i: nat, j: nat)
    requires |s| == k * size && i < k && j < size
    ensures i * size + j < |s|
    ensures Chunks(s, k, size)[i][j] == s[i * size + j]
    decreases k
  {
    assert |s[size..]| == (k - 1) * size;
    if i > 0 {
      ChunksAt(s[size..], k - 1, size, i - 1, j);
      assert i * size + j == size + ((i - 1) * size + j);
    }
  }

  /** Joining the pieces gives back the whole. */
  lemma {:induction false} ChunksFlatten<T>(s: seq<T>, k: nat, size: nat)
    requires |s| == k * size
    ensures Matrix.Flatten(Chunks(s, k, size)) == s
    decreases k
  {
    if k > 0 {
      assert |s[size..]| == (k - 1) * size;
      ChunksFlatten(s[size..], k - 1, size);
      assert s == s[..size] + s[size..];
    }
  }

  /** `x.reshape((devices, update_batch_size, num_envs))` on a flat sequence in row-major order. */
  function Reshape<T>(flat: seq<T>, devices: nat, rows: nat, envs: nat): (r: seq<seq<seq<T>>>)
    requires |flat| == devices * (rows * envs)
    ensures |r| == devices
    ensures forall d :: 0 <= d < devices ==> |r[d]| == rows
    ensures forall d, u :: 0 <= d < devices && 0 <= u < rows ==> |r[d][u]| == envs
  {
    var perDevice := Chunks(flat, devices, rows * envs);
    seq(devices, d requires 0 <= d < devices => Chunks(perDevice[d], rows, envs))
  }

  /** Slot `[d][u][e]` of the reshaped array holds flat entry `d*rows*envs + u*envs + e`. */
  lemma {:induction false} ReshapeAt<T>(flat: seq<T>, devices: nat, rows: nat, envs: nat, d: nat, u: nat, e: nat)
    requires |flat| == devices * (rows * envs) && d < devices && u < rows && e < envs
    ensures d * (rows * envs) + (u * envs + e) < |flat|
    ensures Reshape(flat, devices, rows, envs)[d][u][e] == flat[d * (rows * envs) + (u * envs + e)]
  {
    var perDevice := Chunks(flat, devices, rows * envs);
    ChunksAt(perDevice[d], rows, envs, u, e);
    ChunksAt(flat, devices, rows * envs, d, u * envs + e);
  }

  /** The flattening that undoes the reshape: all environments of all rows of all devices. */
  function Flatten3<T>(g: seq<seq<seq<T>>>): seq<T>
  {
    if g == [] then [] else Matrix.Flatten(g[0]) + Flatten3(g[1..])
  }

  /** Splitting each of the pieces again and flattening both levels gives the pieces joined. */
  lemma {:induction false} Flatten3Chunks<T>(c: seq<seq<T>>, rows: nat, envs: nat)
    requires forall d :: 0 <= d < |c| ==> |c[d]| == rows * envs
    ensures Flatten3(seq(|c|, d requires 0 <= d < |c| => Chunks(c[d], rows, envs))) == Matrix.Flatten(c)
    decreases |c|
  {
    var g := seq(|c|, d requires 0 <= d < |c| => Chunks(c[d], rows, envs));
    if c != [] {
      var c' := c[1..];
      assert g[1..] == seq(|c'|, d requires 0 <= d < |c'| => Chunks(c'[d], rows, envs));
      Flatten3Chunks(c', rows, envs);
      ChunksFlatten(c[0], rows, envs);
    }
  }

  /** Reshaping and flattening again gives back the flat sequence: every environment key lands in
      exactly one slot, in order. */
  lemma {:induction false} ReshapeRoundTrip<T>(flat: seq<T>, devices: nat, rows: nat, envs: nat)
    requires |flat| == devices * (rows * envs)
    ensures Flatten3(Reshape(flat, devices, rows, envs)) == flat
  {
    var perDevice := Chunks(flat, devices, rows * envs);
    Flatten3Chunks(perDevice, rows, envs);
    ChunksFlatten(flat, devices, rows * envs);
  }

  /** `key, *env_keys = jax.random.split(key, n + 1)` followed by the reshape: the kept key and
      the environment keys as a `devices x rows x envs` array. */
  function EnvKeys<K>(split: (K, nat) -> seq<K>, key: K, devices: nat, rows: nat, envs: nat)
    : (r: Result<(K, seq<seq<seq<K>>>)>)
    ensures |split(key, EnvKeyCount(devices, rows, envs))| == EnvKeyCount(devices, rows, envs) ==>
      && r.Ok?
      && r.value.0 == split(key, EnvKeyCount(devices, rows, envs))[0]
      && Flatten3(r.value.1) == split(key, EnvKeyCount(devices, rows, envs))[1..]
      && r.value.1 == Reshape(split(key, EnvKeyCount(devices, rows, envs))[1..], devices, rows, envs)
    ensures |split(key, EnvKeyCount(devices, rows, envs))| != EnvKeyCount(devices, rows, envs) ==> r.Error?
  {
    var keys := split(key, EnvKeyCount(devices, rows, envs));
    if |keys| != EnvKeyCount(devices, rows, envs) then Error("split returned the wrong number of keys")
    else
      assert |keys[1..]| == devices * (rows * envs);
      ReshapeRoundTrip(keys[1..], devices, rows, envs);
      Ok((keys[0], Reshape(keys[1..], devices, rows, envs)))
  }
}
