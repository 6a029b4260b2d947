/** The backend environment the SDK talks to, persisted under the environment key. */
module Environments {
  import opened Wrappers
  import opened Defaults

  datatype AlternatorEnvironment = Staging | Production

  function EnvironmentRawValue(e: AlternatorEnvironment): string
  {
    match e
    case Staging => "staging"
    case Production => "production"
  }

  /** `AlternatorEnvironment(rawValue:)` */
  function EnvironmentFromRawValue(s: string): Option<AlternatorEnvironment>
  {
    if s == "staging" then Some(Staging)
    else if s == "production" then Some(Production)
    else None
  }

  /** The stored environment, or `production` when nothing valid is stored. */
  function EnvironmentIn(m: Store): (e: AlternatorEnvironment)
    ensures StringAt(m, Environment).None? ==> e == Production
    ensures StringAt(m, Environment).Some? && EnvironmentFromRawValue(StringAt(m, Environment).value).None? ==> e == Production
  {
    match StringAt(m, Environment)
    case None => Production
    case Some(s) => EnvironmentFromRawValue(s).GetOr(Production)
  }

  /** `BonnetAlternator.setEnvironment(to:)` */
  method SetEnvironment(helper: UsersDefaultHelper, newEnvironment: AlternatorEnvironment)
    modifies helper
    ensures helper.defaults == old(helper.defaults)[KeyName(Environment) := StoredString(EnvironmentRawValue(newEnvironment))]
  {
    helper.Save(EnvironmentRawValue(newEnvironment), Environment);
  }

  /** `BonnetAlternator.activeEnvironment` */
  function ActiveEnvironment(helper: UsersDefaultHelper): (e: AlternatorEnvironment)
    reads helper
    ensures e == EnvironmentIn(helper.defaults)
  {
    match helper.GetString(Environment)
    case None => Production
    case Some(s) => EnvironmentFromRawValue(s).GetOr(Production)
  }

  /** After `setEnvironment(to: e)` the active environment is `e`. */
  lemma ActiveAfterSet(m: Store, e: AlternatorEnvironment)
    ensures EnvironmentIn(m[KeyName(Environment) := StoredString(EnvironmentRawValue(e))]) == e
  {
  }

  /** A stored string names an environment exactly when it is a raw value; then that environment is active. */
  lemma EnvironmentFromStored(m: Store, s: string)
    requires StringAt(m, Environment) == Some(s)
    ensures (exists e :: EnvironmentRawValue(e) == s) ==> EnvironmentRawValue(EnvironmentIn(m)) == s
    ensures (forall e :: EnvironmentRawValue(e) != s) ==> EnvironmentIn(m) == Production
  {
    if exists e :: EnvironmentRawValue(e) == s {
      var e :| EnvironmentRawValue(e) == s;
      assert EnvironmentFromRawValue(s) == Some(e);
    }
  }
}
