/** The server's overall health check: the sub-checks' errors gathered in a fixed order, with fallback notes. */
module ServerHealth {

  const NoEndpointsMessage: string := "No Endpoints Detected."
  const NoErrorsMessage: string := "No Errors Detected."

  /** The `errors` lists of the seven sub-checks. */
  datatype SubCheckErrors = SubCheckErrors(
    application: seq<string>, deployment: seq<string>, runtime: seq<string>, scheduler: seq<string>,
    security: seq<string>, snowflake: seq<string>, database: seq<string>)

  /** The sub-checks' errors in the order `init` adds them. */
  function Collected(c: SubCheckErrors): seq<string> {
    c.application + c.deployment + c.runtime + c.scheduler + c.security + c.snowflake + c.database
  }

  /** The `health` list after `init`; `endpoints` are the registered routes. */
  function InitHealth(health: seq<string>, c: SubCheckErrors, endpoints: seq<string>): (r: seq<string>)
    ensures |r| >= 1
  {
    var gathered := health + Collected(c);
    var noted := if endpoints == [] then gathered + [NoEndpointsMessage] else gathered;
    if noted == [] then [NoErrorsMessage] else noted
  }

  /** What `init` adds after the sub-checks' errors. */
  function Notes(health: seq<string>, c: SubCheckErrors, endpoints: seq<string>): seq<string> {
    var r := InitHealth(health, c, endpoints);
    var n := |health + Collected(c)|;
    if n <= |r| then r[n..] else []
  }

  /**
   * `health` starts with its initial entries and then each sub-check's errors in order; after
   * them come the endpoint note exactly when there are no endpoints, and the all-clear note
   * exactly when nothing was gathered and endpoints exist.
   */
  lemma InitHealthLayout(health: seq<string>, c: SubCheckErrors, endpoints: seq<string>)
    ensures var r := InitHealth(health, c, endpoints);
            var gathered := health + Collected(c);
            && |gathered| <= |r|
            && r[..|gathered|] == gathered
            && r[|health|..|health| + |c.application|] == c.application
            && r[|gathered| - |c.database|..|gathered|] == c.database
    ensures NoEndpointsMessage in Notes(health, c, endpoints) <==> endpoints == []
    ensures NoErrorsMessage in Notes(health, c, endpoints) <==> health + Collected(c) == [] && endpoints != []
    ensures Notes(health, c, endpoints) ==
      if endpoints == [] then [NoEndpointsMessage]
      else if health + Collected(c) == [] then [NoErrorsMessage]
      else []
  {
    var r := InitHealth(health, c, endpoints);
    var gathered := health + Collected(c);
    if endpoints == [] {
      assert r == gathered + [NoEndpointsMessage];
      assert Notes(health, c, endpoints) == [NoEndpointsMessage];
    } else if gathered == [] {
      assert Notes(health, c, endpoints) == [NoErrorsMessage];
    } else {
      assert Notes(health, c, endpoints) == [];
    }
    assert r[..|gathered|] == gathered;
    assert gathered[|health|..|health| + |c.application|] == c.application;
    assert gathered[|gathered| - |c.database|..] == c.database;
  }

  /**
   * Via `create`, which starts from an empty list, `health` is exactly the all-clear note when
   * no sub-check reports an error and endpoints exist, and only then, provided no sub-check
   * reports the all-clear text itself.
   */
  lemma CreateAllClear(c: SubCheckErrors, endpoints: seq<string>)
    requires NoErrorsMessage !in Collected(c)
    ensures InitHealth([], c, endpoints) == [NoErrorsMessage] <==> Collected(c) == [] && endpoints != []
  {
    var gathered := [] + Collected(c);
    var r := InitHealth([], c, endpoints);
    assert gathered == Collected(c);
    assert NoEndpointsMessage[4] != NoErrorsMessage[4];
    if endpoints == [] {
      assert r == gathered + [NoEndpointsMessage];
      assert r[|r| - 1] != NoErrorsMessage;
    } else if gathered == [] {
      assert r == [NoErrorsMessage];
    } else {
      assert r == gathered;
      assert r[0] in Collected(c);
    }
  }

  /** Without that proviso the converse fails: a sub-check reporting the all-clear text yields the same list. */
  lemma CreateAllClearCounterexample()
    ensures var c := SubCheckErrors([NoErrorsMessage], [], [], [], [], [], []);
            InitHealth([], c, ["/health"]) == [NoErrorsMessage] && Collected(c) != []
  {
    var c := SubCheckErrors([NoErrorsMessage], [], [], [], [], [], []);
    assert Collected(c) == [NoErrorsMessage];
  }

  class HealthCheck {
    var health: seq<string>
    const endpoints: seq<string>

    /** The private constructor followed by `init`. */
    constructor (health: seq<string>, c: SubCheckErrors, endpoints: seq<string>)
      ensures this.health == InitHealth(health, c, endpoints)
      ensures this.endpoints == endpoints
    {
      this.health := health;
      this.endpoints := endpoints;
      new;
      this.health := this.health + c.application;
      this.health := this.health + c.deployment;
      this.health := this.health + c.runtime;
      this.health := this.health + c.scheduler;
      this.health := this.health + c.security;
      this.health := this.health + c.snowflake;
      this.health := this.health + c.database;
      assert this.health == health + Collected(c);
      if endpoints == [] {
        this.health := this.health + [NoEndpointsMessage];
      }
      if this.health == [] {
        this.health := this.health + [NoErrorsMessage];
      }
    }

    /** `create`: an empty list and the sub-checks' errors, gathered by the caller. */
    static method Create(c: SubCheckErrors, endpoints: seq<string>) returns (check: HealthCheck)
      ensures fresh(check)
      ensures check.health == InitHealth([], c, endpoints)
    {
      check := new HealthCheck([], c, endpoints);
    }
  }
}
