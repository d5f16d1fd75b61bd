/** The connection configuration of the Secrets Manager client: which region to talk
    to and how to authenticate, decoded from the configuration map the host runtime
    passes to `init`. Everything here is a pure decision on values. */
module ConnectionConfig {
  import opened Wrappers

  // ---------------------------------------------------------------- region

  /** The SDK region constants that are treated as global. */
  datatype GlobalRegion = AwsGlobal | AwsCnGlobal | AwsUsGovGlobal | AwsIsoGlobal | AwsIsoBGlobal

  /** The global regions in the order the lookup tries them. */
  const GlobalRegions: seq<GlobalRegion> :=
    [AwsGlobal, AwsCnGlobal, AwsUsGovGlobal, AwsIsoGlobal, AwsIsoBGlobal]

  /** The id the SDK gives each global constant. Nothing below depends on the text
      of these ids, only on their being pairwise different (GlobalIdsDistinct). */
  function GlobalId(g: GlobalRegion): string {
    match g
    case AwsGlobal => "aws-global"
    case AwsCnGlobal => "aws-cn-global"
    case AwsUsGovGlobal => "aws-us-gov-global"
    case AwsIsoGlobal => "aws-iso-global"
    case AwsIsoBGlobal => "aws-iso-b-global"
  }

  /** An SDK region: one of the canonical global constants, or a region made by
      `Region.of` from an arbitrary id. */
  datatype Region = Global(constant: GlobalRegion) | Custom(id: string) {
    function Id(): string {
      match this
      case Global(g) => GlobalId(g)
      case Custom(id) => id
    }
  }

  /** The global list names every global constant, each exactly once. */
  lemma GlobalRegionsListed(g: GlobalRegion)
    ensures g in GlobalRegions
    ensures forall i, j :: 0 <= i < j < |GlobalRegions| ==> GlobalRegions[i] != GlobalRegions[j]
  {
  }

  /** No two global constants share an id, so at most one of them can match a
      given region string. */
  lemma GlobalIdsDistinct(g: GlobalRegion, h: GlobalRegion)
    ensures GlobalId(g) == GlobalId(h) ==> g == h
  {
  }

  /** The position of the first candidate whose id equals `region`, or
      `|candidates|` when none does: a filter followed by find-first. */
  function FirstMatch(candidates: seq<GlobalRegion>, region: string): (k: nat)
    ensures k <= |candidates|
    ensures k < |candidates| ==> GlobalId(candidates[k]) == region
    ensures forall j :: 0 <= j < k ==> GlobalId(candidates[j]) != region
  {
    if candidates == [] then 0
    else if GlobalId(candidates[0]) == region then 0
    else 1 + FirstMatch(candidates[1..], region)
  }

  /** The region named by the configuration's `region` string: the canonical
      constant when a global id matches exactly, otherwise a region built from
      the unmodified string. This code neither rejects nor normalises unknown ids;
      the SDK's `Region.of`, which the source always calls, may still reject one
      (that validation is not part of this model). */
  function GetRegion(region: string): (r: Region)
    ensures r.Id() == region
    ensures forall g :: GlobalId(g) == region ==> r == Global(g)
    ensures (forall g :: GlobalId(g) != region) ==> r == Custom(region)
  {
    var k := FirstMatch(GlobalRegions, region);
    if k < |GlobalRegions| then
      var found := GlobalRegions[k];
      assert forall g :: GlobalId(g) == region ==> g == found by {
        forall g | GlobalId(g) == region ensures g == found {
          GlobalIdsDistinct(g, found);
        }
      }
      Global(found)
    else
      assert forall g :: GlobalId(g) != region by {
        forall g ensures GlobalId(g) != region {
          GlobalRegionsListed(g);
        }
      }
      Custom(region)
  }

  /** A region as the lookup can produce it: one built from an id is never built
      from the id of a global constant. */
  predicate Canonical(r: Region) {
    r.Custom? ==> forall g :: GlobalId(g) != r.id
  }

  /** Looking up a region's own id gives that region back, for every region the
      lookup can produce; together with `GetRegion(s).Id() == s` the lookup is a
      bijection between strings and canonical regions. */
  lemma GetRegionOfId(r: Region)
    requires Canonical(r)
    ensures Canonical(GetRegion(r.Id()))
    ensures GetRegion(r.Id()) == r
  {
  }

  // ---------------------------------------------------------------- auth

  /** The tag that selects the ECS container role. */
  const EcsContainerRoleTag := "ECS_CONTAINER_ROLE"

  /** Static credentials read from an `auth` map. */
  datatype StaticAuth = StaticAuth(accessKeyId: string, secretAccessKey: string, sessionToken: Option<string>)

  /** The decoded authentication configuration: static credentials or one of the
      two IAM-role kinds. */
  datatype AuthConfig = Static(credentials: StaticAuth) | EcsContainerRole | Ec2IamRole

  /** The value found under the configuration's `auth` key. A map carries the
      outcome of reading the static credentials out of it (that parsing is not
      part of this model: it either yields the fields or throws). */
  datatype AuthInput =
    | MapValue(parsed: Attempt<StaticAuth>)
    | StringValue(s: string)
    | NullValue
    | OtherValue

  /** Classifies the `auth` value: a map gives static credentials, the exact
      (case-sensitive) tag gives the ECS container role, and every other value,
      `null` included, silently gives the EC2 IAM role. The three outcomes are
      exclusive and together cover every input. */
  function GetAuth(authConfig: AuthInput): (r: Attempt<AuthConfig>)
    ensures r.Threw? <==> authConfig.MapValue? && authConfig.parsed.Threw?
    ensures r.Threw? ==> r.message == authConfig.parsed.message
    ensures r.Returned? && r.value.Static? <==> authConfig.MapValue? && authConfig.parsed.Returned?
    ensures r.Returned? && r.value.Static? ==> r.value.credentials == authConfig.parsed.value
    ensures r == Returned(EcsContainerRole) <==> authConfig == StringValue(EcsContainerRoleTag)
    ensures r == Returned(Ec2IamRole) <==> !authConfig.MapValue? && authConfig != StringValue(EcsContainerRoleTag)
  {
    if authConfig.MapValue? then
      match authConfig.parsed
      case Returned(staticAuth) => Returned(Static(staticAuth))
      case Threw(message) => Threw(message)
    else if authConfig.StringValue? && authConfig.s == EcsContainerRoleTag then
      Returned(EcsContainerRole)
    else
      Returned(Ec2IamRole)
  }

  // ---------------------------------------------------------------- record

  /** The two entries of the configuration map that are read: `region`, read as a
      string (reading throws when the entry is absent or not a string), and
      `auth`, read as any value (absent reads as `null`). */
  datatype Configurations = Configurations(region: Attempt<string>, auth: AuthInput)

  /** The decoded connection configuration. */
  datatype ConnectionConfig = ConnectionConfig(region: Region, auth: AuthConfig)

  /** Builds the record from the configuration map: the region from the `region`
      entry alone, the auth from the `auth` entry alone. The region is read
      first, so a failure to read it is the one reported. */
  function FromConfigurations(configurations: Configurations): (r: Attempt<ConnectionConfig>)
    ensures r.Returned? <==> configurations.region.Returned? && GetAuth(configurations.auth).Returned?
    ensures r.Returned? ==> r.value.region == GetRegion(configurations.region.value)
    ensures r.Returned? ==> r.value.region.Id() == configurations.region.value
    ensures r.Returned? ==> r.value.auth == GetAuth(configurations.auth).value
    ensures configurations.region.Threw? ==> r == Threw(configurations.region.message)
    ensures configurations.region.Returned? && GetAuth(configurations.auth).Threw? ==>
              r == Threw(GetAuth(configurations.auth).message)
  {
    match configurations.region
    case Threw(message) => Threw(message)
    case Returned(region) =>
      match GetAuth(configurations.auth)
      case Threw(message) => Threw(message)
      case Returned(auth) => Returned(ConnectionConfig(GetRegion(region), auth))
  }
}
