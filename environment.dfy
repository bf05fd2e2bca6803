/**
 * The environment builder of `Application.Run`: decoded secrets are overlaid in
 * reference order into one map (a later write wins), and that map is appended,
 * one `NAME=VALUE` entry per key, after the inherited environment.
 */
module Environment {
  import opened Basics

  /** The `k + "=" + v` entry handed to the child process. */
  function Render(name: string, value: string): string {
    name + "=" + value
  }

  /** An entry is its name, then `=` at the name's length, then its value. */
  lemma RenderShape(name: string, value: string)
    ensures |Render(name, value)| == |name| + 1 + |value|
    ensures Render(name, value)[..|name|] == name && Render(name, value)[|name|] == '='
    ensures Render(name, value)[|name| + 1..] == value
  {
  }

  /** `ks` lists every key of `m` exactly once, in some order (Go's map iteration order is unspecified). */
  ghost predicate Enumerates(ks: seq<string>, m: map<string, string>) {
    && (forall i, j :: 0 <= i < j < |ks| ==> ks[i] != ks[j])
    && (forall k :: k in ks <==> k in m)
  }

  /** The overlay of `maps` in order: each map overwrites the keys it holds. */
  function Merge(maps: seq<map<string, string>>): map<string, string>
  {
    if maps == [] then map[] else Merge(maps[..|maps| - 1]) + maps[|maps| - 1]
  }

  /** The index of the last map that holds `k`, or -1 when none does. */
  function LastWriter(maps: seq<map<string, string>>, k: string): (r: int)
    ensures -1 <= r < |maps|
    ensures r >= 0 ==> k in maps[r]
    ensures forall j :: r < j < |maps| ==> k !in maps[j]
  {
    if maps == [] then -1
    else if k in maps[|maps| - 1] then |maps| - 1
    else LastWriter(maps[..|maps| - 1], k)
  }

  /** Override precedence: every merged key carries the value of the last secret that holds it. */
  lemma {:induction false} MergePrecedence(maps: seq<map<string, string>>, k: string)
    ensures k in Merge(maps) <==> LastWriter(maps, k) >= 0
    ensures k in Merge(maps) ==> Merge(maps)[k] == maps[LastWriter(maps, k)][k]
    decreases |maps|
  {
    if maps != [] && k !in maps[|maps| - 1] {
      var front := maps[..|maps| - 1];
      MergePrecedence(front, k);
      assert LastWriter(maps, k) == LastWriter(front, k);
      if LastWriter(front, k) >= 0 {
        assert maps[LastWriter(maps, k)] == front[LastWriter(front, k)];
      }
    }
  }

  /** Two secrets that both set `k`: the second one's value is the one that remains. */
  lemma LaterSecretWins(first: map<string, string>, second: map<string, string>, k: string)
    requires k in first && k in second
    ensures Merge([first, second])[k] == second[k]
  {
    MergePrecedence([first, second], k);
  }

  /** The entries for the keys `ks` of `m`, in that order. */
  function EnvEntries(ks: seq<string>, m: map<string, string>): (r: seq<string>)
    requires forall k :: k in ks ==> k in m
    ensures |r| == |ks|
    ensures forall i :: 0 <= i < |ks| ==> r[i] == Render(ks[i], m[ks[i]])
  {
    if ks == [] then []
    else
      var front := ks[..|ks| - 1];
      assert forall k :: k in front ==> k in ks;
      EnvEntries(front, m) + [Render(ks[|ks| - 1], m[ks[|ks| - 1]])]
  }

  /** The environment the child receives: `environ` unchanged, then one entry per key of `secrets`. */
  ghost predicate LaunchEnv(env: seq<string>, environ: seq<string>, secrets: map<string, string>) {
    exists ks :: Enumerates(ks, secrets) && env == environ + EnvEntries(ks, secrets)
  }

  lemma {:induction false} DistinctElements(ks: seq<string>)
    requires forall i, j :: 0 <= i < j < |ks| ==> ks[i] != ks[j]
    ensures |set k | k in ks| == |ks|
    decreases |ks|
  {
    if ks != [] {
      var front := ks[..|ks| - 1];
      var last := ks[|ks| - 1];
      DistinctElements(front);
      assert (set k | k in ks) == (set k | k in front) + {last};
      assert last !in front;
    }
  }

  lemma DistinctCardinality(ks: seq<string>, m: map<string, string>)
    requires Enumerates(ks, m)
    ensures |ks| == |m|
  {
    DistinctElements(ks);
    assert m.Keys == set k | k in ks;
  }

  /** Every key of `m` listed in `ks` has its entry among `EnvEntries(ks, m)`. */
  lemma EntryOfEveryKey(ks: seq<string>, m: map<string, string>, k: string)
    requires forall k' :: k' in ks ==> k' in m
    requires k in ks
    ensures Render(k, m[k]) in EnvEntries(ks, m)
  {
    var i :| 0 <= i < |ks| && ks[i] == k;
    assert EnvEntries(ks, m)[i] == Render(k, m[k]);
  }

  /** Every entry of `EnvEntries(ks, m)` renders some key of `m`. */
  lemma EveryEntryIsAKey(ks: seq<string>, m: map<string, string>, e: string) returns (k: string)
    requires forall k' :: k' in ks ==> k' in m
    requires e in EnvEntries(ks, m)
    ensures k in m && e == Render(k, m[k])
  {
    var entries := EnvEntries(ks, m);
    var i :| 0 <= i < |entries| && entries[i] == e;
    k := ks[i];
  }

  /**
   * The shape of the child's environment: the inherited environment is a prefix,
   * followed by exactly one `k=v` entry per secret key and nothing else.
   */
  lemma LaunchEnvShape(env: seq<string>, environ: seq<string>, secrets: map<string, string>)
    requires LaunchEnv(env, environ, secrets)
    ensures |env| == |environ| + |secrets|
    ensures env[..|environ|] == environ
    ensures forall k :: k in secrets ==> Render(k, secrets[k]) in env[|environ|..]
    ensures forall e :: e in env[|environ|..] ==> exists k :: k in secrets && e == Render(k, secrets[k])
  {
    var ks :| Enumerates(ks, secrets) && env == environ + EnvEntries(ks, secrets);
    DistinctCardinality(ks, secrets);
    var tail := env[|environ|..];
    assert tail == EnvEntries(ks, secrets);
    forall k | k in secrets ensures Render(k, secrets[k]) in tail {
      EntryOfEveryKey(ks, secrets, k);
    }
    forall e | e in tail ensures exists k :: k in secrets && e == Render(k, secrets[k]) {
      var k := EveryEntryIsAKey(ks, secrets, e);
    }
  }

  /** The length of the name part of an entry: everything before its first '='. */
  function NameLength(e: string): (n: nat)
    ensures n <= |e|
    ensures forall i :: 0 <= i < n ==> e[i] != '='
    ensures n < |e| ==> e[n] == '='
  {
    if e == [] || e[0] == '=' then 0 else 1 + NameLength(e[1..])
  }

  /**
   * What the child sees for `name`: the value of the last entry with that name
   * (for a duplicated name only the last entry is observable).
   */
  function EnvLookup(env: seq<string>, name: string): Option<string>
  {
    if env == [] then None
    else
      var e := env[|env| - 1];
      var n := NameLength(e);
      if n < |e| && e[..n] == name then Some(e[n + 1..]) else EnvLookup(env[..|env| - 1], name)
  }

  lemma RenderSplits(k: string, v: string)
    requires '=' !in k
    ensures NameLength(Render(k, v)) == |k|
    ensures Render(k, v)[..|k|] == k && Render(k, v)[|k| + 1..] == v
  {
    var e := Render(k, v);
    assert e[|k|] == '=';
    assert forall i :: 0 <= i < |k| ==> e[i] == k[i];
  }

  /** The lookup after one more entry: that entry if it carries `name`, otherwise the earlier answer. */
  lemma LookupAfterEntry(env: seq<string>, k: string, v: string, name: string)
    requires '=' !in k
    ensures EnvLookup(env + [Render(k, v)], name) == if k == name then Some(v) else EnvLookup(env, name)
  {
    RenderSplits(k, v);
    assert (env + [Render(k, v)])[..|env|] == env;
  }

  /** Appended entries decide the lookup of their own keys and leave every other name alone. */
  lemma {:induction false} EntriesLookup(environ: seq<string>, ks: seq<string>, m: map<string, string>, name: string)
    requires forall k :: k in ks ==> k in m && '=' !in k
    ensures name in ks ==> EnvLookup(environ + EnvEntries(ks, m), name) == Some(m[name])
    ensures name !in ks ==> EnvLookup(environ + EnvEntries(ks, m), name) == EnvLookup(environ, name)
    decreases |ks|
  {
    if ks == [] {
      assert environ + EnvEntries(ks, m) == environ;
    } else {
      var front := ks[..|ks| - 1];
      var last := ks[|ks| - 1];
      assert forall k :: k in front ==> k in ks;
      assert ks == front + [last];
      AppendAssociates(environ, EnvEntries(front, m), [Render(last, m[last])]);
      LookupAfterEntry(environ + EnvEntries(front, m), last, m[last], name);
      EntriesLookup(environ, front, m, name);
    }
  }

  /**
   * The child observes every secret key with its merged value, whatever the
   * inherited environment holds, and every other name as inherited.
   */
  lemma SecretsOverrideInherited(env: seq<string>, environ: seq<string>, secrets: map<string, string>, name: string)
    requires LaunchEnv(env, environ, secrets)
    requires forall k :: k in secrets ==> '=' !in k
    ensures name in secrets ==> EnvLookup(env, name) == Some(secrets[name])
    ensures name !in secrets ==> EnvLookup(env, name) == EnvLookup(environ, name)
  {
    var ks :| Enumerates(ks, secrets) && env == environ + EnvEntries(ks, secrets);
    EntriesLookup(environ, ks, secrets, name);
  }

  /**
   * The inner loop of the fetch step: every pair of `secretMap` is written into
   * `envVars` (in map iteration order), and its keys are collected for the log.
   */
  method OverlaySecret(envVars: map<string, string>, secretMap: map<string, string>)
    returns (merged: map<string, string>, secretKeys: seq<string>)
    ensures merged == envVars + secretMap
    ensures Enumerates(secretKeys, secretMap)
  {
    merged, secretKeys := envVars, [];
    var remaining := secretMap.Keys;
    while remaining != {}
      invariant remaining <= secretMap.Keys
      invariant forall i, j :: 0 <= i < j < |secretKeys| ==> secretKeys[i] != secretKeys[j]
      invariant forall k :: k in secretKeys <==> k in secretMap && k !in remaining
      invariant merged == envVars + (secretMap - remaining)
      decreases remaining
    {
      var k :| k in remaining;
      merged := merged[k := secretMap[k]];
      secretKeys := secretKeys + [k];
      remaining := remaining - {k};
    }
    assert secretMap - remaining == secretMap;
  }

  /** The final loop of the launch step: one `k=v` entry per merged key after the inherited environment. */
  method AppendEnv(environ: seq<string>, envVars: map<string, string>) returns (env: seq<string>)
    ensures LaunchEnv(env, environ, envVars)
  {
    env := environ;
    ghost var ks: seq<string> := [];
    var remaining := envVars.Keys;
    while remaining != {}
      invariant remaining <= envVars.Keys
      invariant forall i, j :: 0 <= i < j < |ks| ==> ks[i] != ks[j]
      invariant forall k :: k in ks <==> k in envVars && k !in remaining
      invariant env == environ + EnvEntries(ks, envVars)
      decreases remaining
    {
      var k :| k in remaining;
      env := env + [Render(k, envVars[k])];
      ks := ks + [k];
      remaining := remaining - {k};
    }
    assert Enumerates(ks, envVars);
  }
}
