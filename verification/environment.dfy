/** The job's configuration check, `validate_environment_vars` (main.py:163-177).
    The process environment is an explicit map from variable name to value;
    a name not in the map is an unset variable. */
module Environment {
  import opened Wrappers
  import opened Seqs

  type Env = map<string, string>

  /** `os.getenv(name)` is truthy: the variable is set to a non-empty string.
      An empty value counts as missing, since `not ""` holds in Python. */
  predicate IsSet(env: Env, name: string) {
    name in env && env[name] != ""
  }

  /** The names the handler insists on (main.py:195). */
  const RequiredVars: seq<string> := ["API_URL", "S3_BUCKET", "S3_KEY", "SNS_TOPIC_ARN"]

  /** The variable `notify_failure` and `notify_success` read the topic from. */
  const TopicVar: string := "SNS_TOPIC_ARN"

  /** The required names that are unset or empty, in the order they were
      required (the list comprehension of main.py:173). */
  function MissingVars(env: Env, required: seq<string>): (missing: seq<string>)
    ensures forall i :: 0 <= i < |missing| ==> missing[i] in required && !IsSet(env, missing[i])
    ensures forall i :: 0 <= i < |required| && !IsSet(env, required[i]) ==> required[i] in missing
    ensures |missing| == 0 <==> forall i :: 0 <= i < |required| ==> IsSet(env, required[i])
  {
    var missing := Filter(required, name => !IsSet(env, name));
    assert |missing| > 0 ==> exists i :: 0 <= i < |required| && required[i] == missing[0];
    missing
  }

  /** `None` exactly when some required name is unset or empty; otherwise a
      map whose keys are exactly the required names, each bound to its value
      in the environment. */
  function Validate(env: Env, required: seq<string>): (r: Option<map<string, string>>)
    ensures r.None? <==> exists i :: 0 <= i < |required| && !IsSet(env, required[i])
    ensures r.Some? ==> r.value.Keys == set name | name in required
    ensures r.Some? ==> forall name :: name in r.value ==> IsSet(env, name) && r.value[name] == env[name]
  {
    var missing := MissingVars(env, required);
    if |missing| > 0 then None
    else
      assert forall name :: name in required ==> IsSet(env, name) by {
        forall name | name in required ensures IsSet(env, name) {
          var i :| 0 <= i < |required| && required[i] == name;
        }
      }
      Some(map name | name in required :: env[name])
  }

  /** A configuration that passed the handler's check names a notification
      topic. */
  lemma ValidatedHasTopic(env: Env)
    requires Validate(env, RequiredVars).Some?
    ensures IsSet(env, TopicVar)
  {
  }
}
