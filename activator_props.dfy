/**
 * The configuration of Sling's Resource Resolver Factory Activator that an
 * AEM context hands to the mock Sling engine: a fixed table of AEM 6 default
 * properties, overlaid by the properties the test author supplies.
 */
module ActivatorProps {
  import opened Wrappers

  /** The Java values the table holds: String, Boolean, Integer and String[]. */
  datatype Value = Str(s: string) | Bool(b: bool) | Int(i: int) | StrList(items: seq<string>)

  type Props = map<string, Value>

  const VirtualKey := "resource.resolver.virtual"

  /**
   * The default table as it stands once every default has been put: fifteen
   * keys, with `resource.resolver.virtual` holding the scalar "302" that
   * replaced the one-element list put for the same key earlier.
   */
  function DefaultTable(): (t: Props)
    ensures VirtualKey in t && t[VirtualKey] == Str("302")
  {
    map[
      "resource.resolver.searchpath" := StrList(["/apps", "/libs", "/apps/foundation/components/primary", "/libs/foundation/components/primary"]),
      "resource.resolver.manglenamespaces" := Bool(true),
      "resource.resolver.allowDirect" := Bool(true),
      "resource.resolver.mapping" := StrList(["/-/"]),
      "resource.resolver.map.location" := Str("/etc/map"),
      "resource.resolver.default.vanity.redirect.status" := Str(""),
      VirtualKey := Str("302"),
      "resource.resolver.enable.vanitypath" := Bool(true),
      "resource.resolver.vanitypath.maxEntries" := Int(-1),
      "resource.resolver.vanitypath.bloomfilter.maxBytes" := Int(1024000),
      "resource.resolver.optimize.alias.resolution" := Bool(true),
      "resource.resolver.vanitypath.whitelist" := StrList(["/apps/", "/libs/", "/content/"]),
      "resource.resolver.vanitypath.blacklist" := StrList(["/content/usergenerated"]),
      "resource.resolver.vanity.precedence" := Bool(false),
      "resource.resolver.providerhandling.paranoid" := Bool(false)
    ]
  }

  /**
   * Builds the defaults the way the Java code does, one put after another
   * into an initially empty map, including the second put of the virtual key.
   */
  method DefaultProps() returns (props: Props)
    ensures props == DefaultTable()
    ensures VirtualKey in props && props[VirtualKey] == Str("302")
  {
    props := map[];
    props := props["resource.resolver.searchpath" := StrList(["/apps", "/libs", "/apps/foundation/components/primary", "/libs/foundation/components/primary"])];
    props := props["resource.resolver.manglenamespaces" := Bool(true)];
    props := props["resource.resolver.allowDirect" := Bool(true)];
    props := props[VirtualKey := StrList(["/:/"])];
    props := props["resource.resolver.mapping" := StrList(["/-/"])];
    props := props["resource.resolver.map.location" := Str("/etc/map")];
    props := props["resource.resolver.default.vanity.redirect.status" := Str("")];
    props := props[VirtualKey := Str("302")];
    props := props["resource.resolver.enable.vanitypath" := Bool(true)];
    props := props["resource.resolver.vanitypath.maxEntries" := Int(-1)];
    props := props["resource.resolver.vanitypath.bloomfilter.maxBytes" := Int(1024000)];
    props := props["resource.resolver.optimize.alias.resolution" := Bool(true)];
    props := props["resource.resolver.vanitypath.whitelist" := StrList(["/apps/", "/libs/", "/content/"])];
    props := props["resource.resolver.vanitypath.blacklist" := StrList(["/content/usergenerated"])];
    props := props["resource.resolver.vanity.precedence" := Bool(false)];
    props := props["resource.resolver.providerhandling.paranoid" := Bool(false)];
  }

  /**
   * The merged configuration: every key of the defaults or of the custom map,
   * the custom value winning whole where both have the key. A null custom map
   * (None) leaves the defaults exactly as they are.
   */
  function Merged(custom: Option<Props>): (r: Props)
    ensures r.Keys == DefaultTable().Keys + custom.GetOr(map[]).Keys
    ensures forall k :: k in custom.GetOr(map[]) ==> r[k] == custom.value[k]
    ensures forall k :: k in DefaultTable() && k !in custom.GetOr(map[]) ==> r[k] == DefaultTable()[k]
    ensures custom == None ==> r == DefaultTable()
  {
    DefaultTable() + custom.GetOr(map[])
  }

  /**
   * Puts every entry of `custom` into `props`, as `Map.putAll` does: each
   * custom entry replaces the value of its key, all other keys keep theirs.
   */
  method PutAll(props: Props, custom: Props) returns (r: Props)
    ensures r.Keys == props.Keys + custom.Keys
    ensures forall k :: k in custom ==> r[k] == custom[k]
    ensures forall k :: k in props && k !in custom ==> r[k] == props[k]
  {
    r := props;
    var rest := custom.Keys;
    while rest != {}
      invariant rest <= custom.Keys
      invariant r.Keys == props.Keys + (custom.Keys - rest)
      invariant forall k :: k in custom && k !in rest ==> r[k] == custom[k]
      invariant forall k :: k in props && k !in custom ==> r[k] == props[k]
      invariant forall k :: k in props && k in rest ==> r[k] == props[k]
      decreases rest
    {
      var k :| k in rest;
      r := r[k := custom[k]];
      rest := rest - {k};
    }
  }

  /**
   * The merger: the AEM defaults, overlaid by the custom properties when
   * they are given.
   */
  method MergeWithAemDefault(custom: Option<Props>) returns (props: Props)
    ensures props.Keys == DefaultTable().Keys + custom.GetOr(map[]).Keys
    ensures forall k :: k in custom.GetOr(map[]) ==> props[k] == custom.value[k]
    ensures forall k :: k in DefaultTable() && k !in custom.GetOr(map[]) ==> props[k] == DefaultTable()[k]
    ensures custom == None ==> props == DefaultTable()
    ensures props == Merged(custom)
  {
    props := DefaultProps();
    if custom.Some? {
      props := PutAll(props, custom.value);
    }
  }

  /**
   * Whatever the custom map, a key the caller leaves alone keeps its default;
   * in particular `resource.resolver.virtual` is "302" and never the list
   * that was put for it first.
   */
  lemma {:induction false} UntouchedDefaultsSurvive(custom: Option<Props>)
    requires VirtualKey !in custom.GetOr(map[])
    ensures VirtualKey in Merged(custom) && Merged(custom)[VirtualKey] == Str("302")
  {
    assert VirtualKey in DefaultTable();
  }
}
