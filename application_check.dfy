/** The application health check: an error when the API schema is served in production. */
module ApplicationHealth {
  import opened Text

  /** `EnvironmentType`, by its enum name. */
  datatype EnvironmentType = EnvironmentType(name: string)

  const Prod: EnvironmentType := EnvironmentType("PROD")

  function SchemaInProdMessage(environment: EnvironmentType): string {
    "ApplicationCheck. API schema is enabled in '" + environment.name + "' environment."
  }

  /**
   * The `errors` list after `init`: the given entries, followed by one message exactly when
   * the environment is production and the API schema is enabled.
   */
  function ApplicationErrors(errors: seq<string>, apiSchemaEnabled: bool, environment: EnvironmentType)
    : (r: seq<string>)
    ensures |errors| <= |r| <= |errors| + 1
    ensures r[..|errors|] == errors
    ensures |r| == |errors| + 1 <==> environment == Prod && apiSchemaEnabled
    ensures |r| == |errors| + 1 ==> r[|errors|] == SchemaInProdMessage(environment)
  {
    if environment == Prod && apiSchemaEnabled then errors + [SchemaInProdMessage(environment)] else errors
  }

  /** The message names the environment it complains about. */
  lemma MessageNamesEnvironment(environment: EnvironmentType)
    ensures Contains(SchemaInProdMessage(environment), environment.name)
  {
    var line := SchemaInProdMessage(environment);
    assert OccursAt(line, environment.name, |"ApplicationCheck. API schema is enabled in '"|);
  }

  class ApplicationCheck {
    var errors: seq<string>
    const apiSchemaEnabled: bool

    /** The primary constructor followed by `init`; `environment` is the runtime environment setting. */
    constructor (errors: seq<string>, apiSchemaEnabled: bool, environment: EnvironmentType)
      ensures this.errors == ApplicationErrors(errors, apiSchemaEnabled, environment)
      ensures this.apiSchemaEnabled == apiSchemaEnabled
    {
      this.errors := errors;
      this.apiSchemaEnabled := apiSchemaEnabled;
      new;
      if environment == Prod {
        if apiSchemaEnabled {
          this.errors := this.errors + [SchemaInProdMessage(environment)];
        }
      }
    }

    /**
     * The secondary constructor: an empty list, and the schema enabled exactly when the runtime
     * environment is one of the API-schema environments.
     */
    constructor FromSettings(schemaEnvironments: seq<EnvironmentType>, environment: EnvironmentType)
      ensures apiSchemaEnabled <==> environment in schemaEnvironments
      ensures errors == ApplicationErrors([], environment in schemaEnvironments, environment)
    {
      errors := [];
      apiSchemaEnabled := environment in schemaEnvironments;
      new;
      if environment == Prod {
        if apiSchemaEnabled {
          errors := errors + [SchemaInProdMessage(environment)];
        }
      }
    }
  }
}
