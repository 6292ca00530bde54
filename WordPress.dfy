/**
 * The parts of the PHP/WordPress runtime the glue code touches: PHP values and their
 * truthiness, the `$_SERVER` array, the constant table filled by `define`, the action
 * table that `remove_action` edits, and the response effects a request emits.
 */
module WordPress {

  import opened Wrappers

  /** A PHP constant's value as the configuration defines them: a string or a boolean. */
  datatype Value = Str(s: string) | Bool(b: bool)

  /**
   * PHP's truthiness of a string: every string is true except "" and "0", so "false",
   * "00" and " " are all true.
   */
  predicate TruthyString(s: string)
    ensures TruthyString(s) ==> s != []
    ensures |s| >= 2 ==> TruthyString(s)
  {
    s != "" && s != "0"
  }

  /** PHP's truthiness of a constant's value. */
  predicate Truthy(v: Value)
  {
    match v
    case Str(s) => TruthyString(s)
    case Bool(b) => b
  }

  /** Reading `$m[$k]` where the slot may be missing. */
  function Get(m: map<string, string>, k: string): Option<string>
  {
    if k in m then Some(m[k]) else None
  }

  /** PHP's `empty($m[$k])` on a string array: the slot is missing, "" or "0". */
  predicate Empty(m: map<string, string>, k: string)
    ensures Empty(m, k) <==> Get(m, k) in {None, Some(""), Some("0")}
  {
    k !in m || !TruthyString(m[k])
  }

  /** `defined($name) && $name`: the constant exists and its value is truthy. */
  predicate DefinedAndTruthy(constants: map<string, Value>, name: string)
  {
    name in constants && Truthy(constants[name])
  }

  /** WordPress sets REST_REQUEST (to true) while it serves a REST API request. */
  predicate IsRestRequest(constants: map<string, Value>)
    ensures IsRestRequest(constants) ==> "REST_REQUEST" in constants
    ensures "REST_REQUEST" in constants && constants["REST_REQUEST"] == Bool(true) ==> IsRestRequest(constants)
    ensures "REST_REQUEST" in constants && constants["REST_REQUEST"] in {Bool(false), Str(""), Str("0")} ==>
      !IsRestRequest(constants)
  {
    DefinedAndTruthy(constants, "REST_REQUEST")
  }

  /** One registration on an action hook: the callback's name and its priority. */
  datatype Callback = Callback(name: string, priority: int)

  /** The callbacks of `hook`, empty when nothing is registered on it. */
  function Registered(hooks: map<string, seq<Callback>>, hook: string): seq<Callback>
  {
    if hook in hooks then hooks[hook] else []
  }

  /**
   * The registrations of `callbacks` other than `target`, in their original order
   * (`WithoutKeepsOrder`).
   */
  function Without(callbacks: seq<Callback>, target: Callback): (r: seq<Callback>)
    ensures target !in r
    ensures forall c :: c != target ==> (c in r <==> c in callbacks)
    ensures multiset(r) == multiset(callbacks)[target := 0]
  {
    if callbacks == [] then []
    else
      assert callbacks == [callbacks[0]] + callbacks[1..];
      if callbacks[0] == target then Without(callbacks[1..], target)
      else [callbacks[0]] + Without(callbacks[1..], target)
  }

  /**
   * Removal keeps order: removing from a concatenation removes from each part, so the
   * registrations that stay run in the order they were added.
   */
  lemma {:induction false} WithoutKeepsOrder(a: seq<Callback>, b: seq<Callback>, target: Callback)
    ensures Without(a + b, target) == Without(a, target) + Without(b, target)
    ensures Without([target], target) == []
    ensures forall c :: c != target ==> Without([c], target) == [c]
  {
    if a == [] {
      assert a + b == b;
    } else {
      assert (a + b)[1..] == a[1..] + b;
      WithoutKeepsOrder(a[1..], b, target);
    }
    assert Without([target], target) == Without([], target);
  }

  /**
   * `remove_action($hook, $name)`: drops the registration of `name` at the default
   * priority 10 from `hook`; every other hook and registration stays as it was.
   */
  function RemoveAction(hooks: map<string, seq<Callback>>, hook: string, name: string): (r: map<string, seq<Callback>>)
    ensures r.Keys == hooks.Keys
    ensures forall h :: h in hooks && h != hook ==> r[h] == hooks[h]
    ensures Callback(name, 10) !in Registered(r, hook)
    ensures forall c :: c != Callback(name, 10) ==> (c in Registered(r, hook) <==> c in Registered(hooks, hook))
  {
    if hook in hooks then hooks[hook := Without(hooks[hook], Callback(name, 10))] else hooks
  }

  /** What a request sends back besides its body: a status line, header sets, termination. */
  datatype Effect = StatusHeader(code: int) | NoCacheHeaders | Exit

  /**
   * The mutable state one request sees: `$_SERVER`, the constant table, the action
   * hook table and the log of effects the request has emitted.
   */
  class Request {
    var server: map<string, string>
    var constants: map<string, Value>
    var hooks: map<string, seq<Callback>>
    var effects: seq<Effect>

    constructor (server: map<string, string>, constants: map<string, Value>, hooks: map<string, seq<Callback>>)
      ensures this.server == server && this.constants == constants && this.hooks == hooks
      ensures effects == []
    {
      this.server := server;
      this.constants := constants;
      this.hooks := hooks;
      effects := [];
    }

    /** The request has called `exit`: nothing after that point runs. */
    predicate Exited()
      reads this
    {
      Exit in effects
    }

    /** `if (!defined($name)) define($name, $v)`: an existing constant is never overwritten. */
    method DefineIfUndefined(name: string, v: Value)
      modifies this`constants
      ensures name in old(constants) ==> constants == old(constants)
      ensures name !in old(constants) ==> constants == old(constants)[name := v]
    {
      if name !in constants {
        constants := constants[name := v];
      }
    }

    /** Appends one effect to the response. */
    method Emit(e: Effect)
      modifies this`effects
      ensures effects == old(effects) + [e]
    {
      effects := effects + [e];
    }
  }
}
