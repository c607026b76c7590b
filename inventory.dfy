/**
 * The data model of the device inventory loader: the document as the YAML
 * decoder leaves it, the inventory that is built from it, and the
 * specification every load must meet.
 */
module InventoryModel {
  import opened Wrappers

  // ---------------------------------------------------------------------------
  // The decoded document (the yamlInventory / yamlHost / yamlGroup structs)
  // ---------------------------------------------------------------------------

  /** One raw connection-option block: field name to its text, not yet decoded. */
  type RawOptions = map<string, string>

  /** A host as written in the document. */
  datatype SourceHost = SourceHost(
    hostname: string,
    platform: string,
    connectionOptions: map<string, RawOptions>,
    cmds: seq<string>)

  /** A group as written in the document: the names of its hosts, in order. */
  datatype SourceGroup = SourceGroup(hosts: seq<string>)

  datatype Document = Document(
    hosts: map<string, SourceHost>,
    groups: map<string, SourceGroup>)

  // ---------------------------------------------------------------------------
  // Transports and the option decoder
  // ---------------------------------------------------------------------------

  /** The two connection schemas the loader knows. */
  datatype Transport = Ssh | Netconf

  /** Options decoded into a transport's own schema (ssh.Options, netconf.Options); their fields are opaque here. */
  datatype ConnOptions = ConnOptions(transport: Transport, settings: map<string, string>)

  /** What the decoder makes of one block: the schema's fields, or why it rejected the block. */
  datatype DecodeResult = Decoded(settings: map<string, string>) | DecodeError(cause: string)

  /** The schema-driven decoder, abstract: it may accept or reject any block. */
  type Decoder = (Transport, RawOptions) -> DecodeResult

  const SshKey: string := "ssh"
  const NetconfKey: string := "netconf"
  const CmdsVar: string := "cmds"
  const AllGroupName: string := "all"

  /** The connection-option key under which a transport is configured. */
  function TransportName(t: Transport): string
  {
    match t
    case Ssh => SshKey
    case Netconf => NetconfKey
  }

  /** The switch on a connection-option key: a known transport, or none. */
  function TransportOf(connType: string): (r: Option<Transport>)
    ensures r.Some? ==> TransportName(r.value) == connType
    ensures r.None? <==> connType !in {SshKey, NetconfKey}
  {
    if connType == SshKey then Some(Ssh)
    else if connType == NetconfKey then Some(Netconf)
    else None
  }

  // ---------------------------------------------------------------------------
  // The inventory that is built
  // ---------------------------------------------------------------------------

  datatype Host = Host(
    name: string,
    hostname: string,
    platform: string,
    connectionOptions: map<string, ConnOptions>,
    vars: map<string, seq<string>>)

  /** A group refers to hosts of the inventory (Go keeps pointers; hosts are never changed after insertion). */
  datatype Group = Group(name: string, hosts: seq<Host>)

  datatype Inventory = Inventory(hosts: map<string, Host>, groups: map<string, Group>)

  datatype LoadError =
    | ReadFailed(cause: string)
    | UnmarshalFailed(cause: string)
    | DecodeFailed(transport: Transport, host: string, cause: string)

  /** What the loader logs and then carries on from. */
  datatype Warning =
    | UnknownConnectionType(connType: string, host: string)
    | HostNotFound(hostName: string, group: string)

  // ---------------------------------------------------------------------------
  // Connection options
  // ---------------------------------------------------------------------------

  /** Key k of src names a known transport whose block the decoder rejects. */
  ghost predicate FailsAt(src: SourceHost, decode: Decoder, k: string)
  {
    && k in src.connectionOptions
    && TransportOf(k).Some?
    && decode(TransportOf(k).value, src.connectionOptions[k]).DecodeError?
  }

  ghost predicate HostDecodeFails(src: SourceHost, decode: Decoder)
  {
    exists k :: FailsAt(src, decode, k)
  }

  ghost predicate SomeDecodeFails(srcHosts: map<string, SourceHost>, decode: Decoder)
  {
    exists n :: n in srcHosts && HostDecodeFails(srcHosts[n], decode)
  }

  /** Key k of src names a known transport whose block the decoder accepts. */
  ghost predicate Kept(src: SourceHost, decode: Decoder, k: string)
  {
    && k in src.connectionOptions
    && TransportOf(k).Some?
    && decode(TransportOf(k).value, src.connectionOptions[k]).Decoded?
  }

  /**
   * opts is the decoded option table of src: only "ssh" and "netconf" keys,
   * each present exactly when src has it and the decoder accepts it, holding
   * options of that key's transport with the fields the decoder produced.
   */
  ghost predicate OptionsDecoded(src: SourceHost, decode: Decoder, opts: map<string, ConnOptions>)
  {
    && opts.Keys <= {SshKey, NetconfKey}
    && (forall k :: k in opts ==>
          && Kept(src, decode, k)
          && opts[k].transport == TransportOf(k).value
          && opts[k].settings == decode(TransportOf(k).value, src.connectionOptions[k]).settings)
    && (forall k :: Kept(src, decode, k) ==> k in opts)
  }

  /** e reports a decoding failure that really happens in srcHosts, with its cause. */
  ghost predicate FailureReported(srcHosts: map<string, SourceHost>, decode: Decoder, e: LoadError)
  {
    && e.DecodeFailed?
    && e.host in srcHosts
    && FailsAt(srcHosts[e.host], decode, TransportName(e.transport))
    && e.cause == decode(e.transport, srcHosts[e.host].connectionOptions[TransportName(e.transport)]).cause
  }

  // ---------------------------------------------------------------------------
  // The host table
  // ---------------------------------------------------------------------------

  ghost predicate HostBuilt(name: string, src: SourceHost, decode: Decoder, h: Host)
  {
    && h.name == name
    && h.hostname == src.hostname
    && h.platform == src.platform
    && h.vars == map[CmdsVar := src.cmds]
    && OptionsDecoded(src, decode, h.connectionOptions)
  }

  ghost predicate HostsBuilt(srcHosts: map<string, SourceHost>, decode: Decoder, hosts: map<string, Host>)
  {
    && hosts.Keys == srcHosts.Keys
    && forall n :: n in hosts ==> HostBuilt(n, srcHosts[n], decode, hosts[n])
  }

  /** Every host is stored under its own name. */
  ghost predicate NamedByKey(hosts: map<string, Host>)
  {
    forall n :: n in hosts ==> hosts[n].name == n
  }

  // ---------------------------------------------------------------------------
  // Group resolution
  // ---------------------------------------------------------------------------

  /**
   * The hosts a list of references resolves to: each name found in the table,
   * in order and with repeats; names not in the table are dropped.
   */
  function ResolveGroup(refs: seq<string>, hosts: map<string, Host>): (r: seq<Host>)
    ensures |r| <= |refs|
    ensures forall j :: 0 <= j < |r| ==> r[j] in hosts.Values
    ensures forall i :: 0 <= i < |refs| && refs[i] in hosts ==> hosts[refs[i]] in r
    decreases |refs|
  {
    if refs == [] then []
    else
      var init := refs[..|refs| - 1];
      var last := refs[|refs| - 1];
      assert forall i :: 0 <= i < |init| ==> init[i] == refs[i];
      var rest := ResolveGroup(init, hosts);
      if last in hosts then rest + [hosts[last]] else rest
  }

  /** The positions of refs whose names are in the table, in increasing order. */
  function KeptIndices(refs: seq<string>, hosts: map<string, Host>): (ks: seq<nat>)
    ensures forall j :: 0 <= j < |ks| ==> ks[j] < |refs| && refs[ks[j]] in hosts
    ensures forall j, j' :: 0 <= j < j' < |ks| ==> ks[j] < ks[j']
    ensures forall i :: 0 <= i < |refs| && refs[i] in hosts ==> i in ks
    decreases |refs|
  {
    if refs == [] then []
    else
      var init := refs[..|refs| - 1];
      assert forall i :: 0 <= i < |init| ==> init[i] == refs[i];
      var rest := KeptIndices(init, hosts);
      if refs[|refs| - 1] in hosts then rest + [|refs| - 1] else rest
  }

  /** Group g of the document resolves against the complete host table. */
  ghost predicate GroupsResolved(doc: Document, inv: Inventory)
  {
    && inv.groups.Keys == doc.groups.Keys + {AllGroupName}
    && forall g :: g in doc.groups ==>
         inv.groups[g] == Group(g, ResolveGroup(doc.groups[g].hosts, inv.hosts))
  }

  /** Without an "all" group in the document, "all" holds every host exactly once. */
  ghost predicate AllGroupSynthesized(doc: Document, inv: Inventory)
    requires AllGroupName in inv.groups
  {
    AllGroupName !in doc.groups ==>
      && inv.groups[AllGroupName].name == AllGroupName
      && |inv.groups[AllGroupName].hosts| == |inv.hosts|
      && multiset(inv.groups[AllGroupName].hosts) == multiset(inv.hosts.Values)
  }

  // ---------------------------------------------------------------------------
  // Warnings
  // ---------------------------------------------------------------------------

  ghost predicate UnknownTypeWarned(srcHosts: map<string, SourceHost>, w: Warning)
  {
    && w.UnknownConnectionType?
    && w.host in srcHosts
    && w.connType in srcHosts[w.host].connectionOptions
    && TransportOf(w.connType).None?
  }

  ghost predicate MissingHostWarned(srcGroups: map<string, SourceGroup>, names: set<string>, w: Warning)
  {
    && w.HostNotFound?
    && w.group in srcGroups
    && w.hostName in srcGroups[w.group].hosts
    && w.hostName !in names
  }

  ghost predicate Warned(doc: Document, w: Warning)
  {
    UnknownTypeWarned(doc.hosts, w) || MissingHostWarned(doc.groups, doc.hosts.Keys, w)
  }

  // ---------------------------------------------------------------------------
  // The whole load
  // ---------------------------------------------------------------------------

  /**
   * What a load of doc promises: it fails exactly when some known transport
   * block fails to decode, naming one such failure; otherwise the host table,
   * the groups and the "all" group are as above. Every warning is justified,
   * and on success every justified warning is given.
   */
  ghost predicate Loaded(doc: Document, decode: Decoder, r: Result<Inventory, LoadError>, warnings: seq<Warning>)
  {
    && (r.Err? <==> SomeDecodeFails(doc.hosts, decode))
    && (r.Err? ==> FailureReported(doc.hosts, decode, r.error))
    && (r.Ok? ==> HostsBuilt(doc.hosts, decode, r.value.hosts))
    && (r.Ok? ==> GroupsResolved(doc, r.value))
    && (r.Ok? ==> AllGroupSynthesized(doc, r.value))
    && (forall w :: w in warnings ==> Warned(doc, w))
    && (r.Ok? ==> forall w :: Warned(doc, w) ==> w in warnings)
  }
}
