/** The start-up check of `ADO_TOKEN` and `ADO_ORG`. An unset variable and an
    empty one are both falsy. */
module Config {
  import opened Domain

  datatype Context = Context(org: string, token: string)

  /** Either the run goes ahead with a context, or the process exits with a code. */
  datatype Startup = Start(ctx: Context) | Exit(code: int)

  const MISSING_SETTING_EXIT := 1
  const DEFAULT_ORG := "My-Org"

  predicate IsSet(v: Option<string>) {
    v.Some? && v.value != ""
  }

  /** Both variables are required; the token is checked first. */
  function RequireTokenAndOrg(token: Option<string>, org: Option<string>): (s: Startup)
    ensures s.Start? <==> IsSet(token) && IsSet(org)
    ensures s.Exit? ==> s.code == MISSING_SETTING_EXIT
    ensures s.Start? ==> s.ctx == Context(org.value, token.value)
  {
    if !IsSet(token) then Exit(MISSING_SETTING_EXIT)
    else if !IsSet(org) then Exit(MISSING_SETTING_EXIT)
    else Start(Context(org.value, token.value))
  }

  /** Only the token is required; a missing org falls back to `My-Org`. */
  function RequireTokenDefaultOrg(token: Option<string>, org: Option<string>): (s: Startup)
    ensures s.Start? <==> IsSet(token)
    ensures s.Exit? ==> s.code == MISSING_SETTING_EXIT
    ensures s.Start? ==> s.ctx.token == token.value
    ensures s.Start? ==> s.ctx.org == if IsSet(org) then org.value else DEFAULT_ORG
  {
    if !IsSet(token) then Exit(MISSING_SETTING_EXIT)
    else
      var orgName := if !IsSet(org) then DEFAULT_ORG else org.value;
      Start(Context(orgName, token.value))
  }
}
