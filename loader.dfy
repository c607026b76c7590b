/**
 * loadInventory: builds the inventory from the decoded document. Go's map
 * iteration order is unspecified, so every loop over a map picks its next
 * key with `:|`; nothing proved below depends on the order picked.
 */
module Loader {
  import opened Wrappers
  import opened InventoryModel

  /**
   * The switch over one host's connection-option blocks: "ssh" and
   * "netconf" are decoded and kept under the same key, any other key is
   * warned about and skipped, and the first rejected block ends the load.
   */
  method DecodeConnectionOptions(name: string, src: SourceHost, decode: Decoder)
    returns (r: Result<map<string, ConnOptions>, LoadError>, warnings: seq<Warning>)
    ensures r.Ok? <==> !HostDecodeFails(src, decode)
    ensures r.Ok? ==> OptionsDecoded(src, decode, r.value)
    ensures r.Err? ==> FailureReported(map[name := src], decode, r.error)
    ensures forall w :: w in warnings ==> UnknownTypeWarned(map[name := src], w)
    ensures r.Ok? ==> forall k :: k in src.connectionOptions && TransportOf(k).None? ==>
                        UnknownConnectionType(k, name) in warnings
  {
    var opts: map<string, ConnOptions> := map[];
    warnings := [];
    var pending := src.connectionOptions.Keys;
    while pending != {}
      invariant pending <= src.connectionOptions.Keys
      invariant forall k :: k in src.connectionOptions && k !in pending ==> !FailsAt(src, decode, k)
      invariant opts.Keys <= {SshKey, NetconfKey}
      invariant forall k :: k in opts ==>
                  k !in pending && Kept(src, decode, k) &&
                  opts[k].transport == TransportOf(k).value &&
                  opts[k].settings == decode(TransportOf(k).value, src.connectionOptions[k]).settings
      invariant forall k :: Kept(src, decode, k) && k !in pending ==> k in opts
      invariant forall w :: w in warnings ==> UnknownTypeWarned(map[name := src], w)
      invariant forall k :: k in src.connectionOptions && k !in pending && TransportOf(k).None? ==>
                  UnknownConnectionType(k, name) in warnings
      decreases pending
    {
      var connType :| connType in pending;
      var raw := src.connectionOptions[connType];
      if connType == SshKey {
        var d := decode(Ssh, raw);
        if d.DecodeError? {
          assert FailsAt(src, decode, connType);
          r := Err(DecodeFailed(Ssh, name, d.cause));
          return;
        }
        opts := opts[SshKey := ConnOptions(Ssh, d.settings)];
      } else if connType == NetconfKey {
        var d := decode(Netconf, raw);
        if d.DecodeError? {
          assert FailsAt(src, decode, connType);
          r := Err(DecodeFailed(Netconf, name, d.cause));
          return;
        }
        opts := opts[NetconfKey := ConnOptions(Netconf, d.settings)];
      } else {
        warnings := warnings + [UnknownConnectionType(connType, name)];
      }
      pending := pending - {connType};
    }
    r := Ok(opts);
  }

  /** The host loop: every document host is stored under its own name. */
  method LoadHosts(srcHosts: map<string, SourceHost>, decode: Decoder)
    returns (r: Result<map<string, Host>, LoadError>, warnings: seq<Warning>)
    ensures r.Err? <==> SomeDecodeFails(srcHosts, decode)
    ensures r.Err? ==> FailureReported(srcHosts, decode, r.error)
    ensures r.Ok? ==> HostsBuilt(srcHosts, decode, r.value)
    ensures forall w :: w in warnings ==> UnknownTypeWarned(srcHosts, w)
    ensures r.Ok? ==> forall w :: UnknownTypeWarned(srcHosts, w) ==> w in warnings
  {
    var table: map<string, Host> := map[];
    warnings := [];
    var pending := srcHosts.Keys;
    while pending != {}
      invariant pending <= srcHosts.Keys
      invariant table.Keys == srcHosts.Keys - pending
      invariant forall n :: n in table ==>
                  !HostDecodeFails(srcHosts[n], decode) && HostBuilt(n, srcHosts[n], decode, table[n])
      invariant forall w :: w in warnings ==> UnknownTypeWarned(srcHosts, w)
      invariant forall w :: UnknownTypeWarned(srcHosts, w) && w.host !in pending ==> w in warnings
      decreases pending
    {
      var name :| name in pending;
      var src := srcHosts[name];
      var decoded, ws := DecodeConnectionOptions(name, src, decode);
      warnings := warnings + ws;
      if decoded.Err? {
        r := Err(decoded.error);
        return;
      }
      table := table[name := Host(name, src.hostname, src.platform, decoded.value, map[CmdsVar := src.cmds])];
      pending := pending - {name};
    }
    r := Ok(table);
  }

  /** One group's references, looked up in the complete host table, in order. */
  method ResolveGroupRefs(name: string, refs: seq<string>, hosts: map<string, Host>)
    returns (g: Group, warnings: seq<Warning>)
    ensures g == Group(name, ResolveGroup(refs, hosts))
    ensures |g.hosts| + |warnings| == |refs|
    ensures forall w :: w in warnings <==>
              w.HostNotFound? && w.group == name && w.hostName in refs && w.hostName !in hosts
  {
    var members: seq<Host> := [];
    warnings := [];
    for i := 0 to |refs|
      invariant members == ResolveGroup(refs[..i], hosts)
      invariant |members| + |warnings| == i
      invariant forall w :: w in warnings <==>
                  w.HostNotFound? && w.group == name && w.hostName in refs[..i] && w.hostName !in hosts
    {
      var hostName := refs[i];
      assert refs[..i + 1][..i] == refs[..i];
      if hostName in hosts {
        members := members + [hosts[hostName]];
      } else {
        warnings := warnings + [HostNotFound(hostName, name)];
      }
    }
    assert refs[..|refs|] == refs;
    g := Group(name, members);
  }

  /** The group loop: every document group, each resolved on its own. */
  method LoadGroups(srcGroups: map<string, SourceGroup>, hosts: map<string, Host>)
    returns (groups: map<string, Group>, warnings: seq<Warning>)
    ensures groups.Keys == srcGroups.Keys
    ensures forall g :: g in groups ==> groups[g] == Group(g, ResolveGroup(srcGroups[g].hosts, hosts))
    ensures forall w :: w in warnings <==> MissingHostWarned(srcGroups, hosts.Keys, w)
  {
    groups := map[];
    warnings := [];
    var pending := srcGroups.Keys;
    while pending != {}
      invariant pending <= srcGroups.Keys
      invariant groups.Keys == srcGroups.Keys - pending
      invariant forall g :: g in groups ==> groups[g] == Group(g, ResolveGroup(srcGroups[g].hosts, hosts))
      invariant forall w :: w in warnings <==> MissingHostWarned(srcGroups, hosts.Keys, w) && w.group !in pending
      decreases pending
    {
      var name :| name in pending;
      var group, ws := ResolveGroupRefs(name, srcGroups[name].hosts, hosts);
      groups := groups[name := group];
      warnings := warnings + ws;
      pending := pending - {name};
    }
  }

  /** The synthesized "all" group: every host of the table, in the order the keys are picked. */
  method AllGroup(hosts: map<string, Host>) returns (g: Group)
    ensures g.name == AllGroupName
    ensures |g.hosts| == |hosts|
    ensures forall j :: 0 <= j < |g.hosts| ==> g.hosts[j] in hosts.Values
    ensures forall n :: n in hosts ==> hosts[n] in g.hosts
    ensures NamedByKey(hosts) ==> multiset(g.hosts) == multiset(hosts.Values)
  {
    var members: seq<Host> := [];
    var pending := hosts.Keys;
    while pending != {}
      invariant pending <= hosts.Keys
      invariant |members| + |pending| == |hosts|
      invariant forall j :: 0 <= j < |members| ==> members[j] in hosts.Values
      invariant forall n :: n in hosts && n !in pending ==> hosts[n] in members
      invariant NamedByKey(hosts) ==>
                  multiset(members) == multiset(set n | n in hosts && n !in pending :: hosts[n])
      decreases pending
    {
      var name :| name in pending;
      members := members + [hosts[name]];
      pending := pending - {name};
    }
    assert (set n | n in hosts && n !in pending :: hosts[n]) == hosts.Values;
    g := Group(AllGroupName, members);
  }

  /** loadInventory after the document has been decoded. */
  method BuildInventory(doc: Document, decode: Decoder)
    returns (r: Result<Inventory, LoadError>, warnings: seq<Warning>)
    ensures Loaded(doc, decode, r, warnings)
  {
    var hosts, hostWarnings := LoadHosts(doc.hosts, decode);
    warnings := hostWarnings;
    if hosts.Err? {
      r := Err(hosts.error);
      return;
    }
    var groups, groupWarnings := LoadGroups(doc.groups, hosts.value);
    warnings := warnings + groupWarnings;
    if AllGroupName !in groups {
      var all := AllGroup(hosts.value);
      HostsAreNamedByKey(doc.hosts, decode, hosts.value);
      AllGroupAdded(doc, hosts.value, groups, all);
      groups := groups[AllGroupName := all];
    }
    var inv := Inventory(hosts.value, groups);
    HostsAreNamedByKey(doc.hosts, decode, inv.hosts);
    WarningsCombine(doc, hostWarnings, groupWarnings);
    r := Ok(inv);
  }

  /**
   * loadInventory as a whole. Reading the file and the YAML grammar are
   * outside the model: the read's outcome and the unmarshaller are parameters.
   */
  method LoadInventory(
    file: Result<seq<bv8>, string>,
    unmarshal: seq<bv8> -> Result<Document, string>,
    decode: Decoder)
    returns (r: Result<Inventory, LoadError>, warnings: seq<Warning>)
    ensures file.Err? ==> r == Err(ReadFailed(file.error)) && warnings == []
    ensures file.Ok? && unmarshal(file.value).Err? ==>
              r == Err(UnmarshalFailed(unmarshal(file.value).error)) && warnings == []
    ensures file.Ok? && unmarshal(file.value).Ok? ==>
              Loaded(unmarshal(file.value).value, decode, r, warnings)
  {
    if file.Err? {
      return Err(ReadFailed(file.error)), [];
    }
    var parsed := unmarshal(file.value);
    if parsed.Err? {
      return Err(UnmarshalFailed(parsed.error)), [];
    }
    r, warnings := BuildInventory(parsed.value, decode);
  }

  /** A table built from the document stores each host under its own name. */
  lemma HostsAreNamedByKey(srcHosts: map<string, SourceHost>, decode: Decoder, hosts: map<string, Host>)
    requires HostsBuilt(srcHosts, decode, hosts)
    ensures NamedByKey(hosts)
  {
  }

  /** The host loop's and the group loop's warnings together are those of the whole document. */
  lemma WarningsCombine(doc: Document, hostWarnings: seq<Warning>, groupWarnings: seq<Warning>)
    requires forall w :: w in hostWarnings ==> UnknownTypeWarned(doc.hosts, w)
    requires forall w :: w in groupWarnings <==> MissingHostWarned(doc.groups, doc.hosts.Keys, w)
    ensures forall w :: w in hostWarnings + groupWarnings ==> Warned(doc, w)
    ensures (forall w :: UnknownTypeWarned(doc.hosts, w) ==> w in hostWarnings) ==>
              forall w :: Warned(doc, w) ==> w in hostWarnings + groupWarnings
  {
  }

  /** Adding a synthesized "all" group to the resolved document groups leaves them as they were. */
  lemma AllGroupAdded(doc: Document, hosts: map<string, Host>, resolved: map<string, Group>, all: Group)
    requires AllGroupName !in resolved && resolved.Keys == doc.groups.Keys
    requires forall g :: g in resolved ==> resolved[g] == Group(g, ResolveGroup(doc.groups[g].hosts, hosts))
    requires all.name == AllGroupName && |all.hosts| == |hosts| && multiset(all.hosts) == multiset(hosts.Values)
    ensures GroupsResolved(doc, Inventory(hosts, resolved[AllGroupName := all]))
    ensures AllGroupSynthesized(doc, Inventory(hosts, resolved[AllGroupName := all]))
  {
    var groups := resolved[AllGroupName := all];
    assert groups.Keys == doc.groups.Keys + {AllGroupName};
    forall g | g in doc.groups
      ensures groups[g] == Group(g, ResolveGroup(doc.groups[g].hosts, hosts))
    {
      assert g != AllGroupName && groups[g] == resolved[g];
    }
    assert groups[AllGroupName] == all;
  }
}
