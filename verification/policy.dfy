/**
  The policy checks applied to a parsed message: the schema-version check,
  which only warns, and the organization allow list, which fails closed.
 */
module Policy {
  import opened Wrappers
  import opened Message
  import opened Effects

  /**
    The consumer configuration the checks read. `currentSchemaVersion` stands
    for the package constant the version is compared with, which is defined
    outside processing.go.
   */
  datatype Config = Config(
    orgAllowlistEnabled: bool,
    orgAllowlist: Option<set<OrgId>>,
    currentSchemaVersion: SchemaVersion)

  /** `checkMessageVersion`: a mismatch yields one warning and nothing else. */
  function CheckMessageVersion(config: Config, m: IncomingMessage): (t: seq<Effect>)
    ensures t == [] <==> m.version == config.currentSchemaVersion
    ensures forall i :: 0 <= i < |t| ==> t[i] == Log(UnexpectedVersion)
    ensures |t| <= 1
  {
    if m.version != config.currentSchemaVersion then [Log(UnexpectedVersion)] else []
  }

  /** `organizationAllowed`: a missing allow list admits nobody. */
  function OrganizationAllowed(config: Config, org: OrgId): (allowed: bool)
    ensures allowed <==> config.orgAllowlist.Some? && org in config.orgAllowlist.value
  {
    match config.orgAllowlist
    case None => false
    case Some(allowList) => org in allowList
  }

  /**
    `checkMessageOrgInAllowList`: passes unconditionally when allow listing is
    disabled; otherwise passes exactly for organizations on a configured list.
   */
  function CheckMessageOrgInAllowList(config: Config, org: OrgId): (err: Option<ConsumerError>)
    ensures !config.orgAllowlistEnabled ==> err.None?
    ensures config.orgAllowlistEnabled ==>
      (err.None? <==> config.orgAllowlist.Some? && org in config.orgAllowlist.value)
    ensures err.Some? ==> err.value == OrgNotInAllowList
  {
    if config.orgAllowlistEnabled && !OrganizationAllowed(config, org) then Some(OrgNotInAllowList)
    else None
  }
}
