/**
 * Properties of the inventory specification: how group resolution treats
 * order, repeats and missing names; what every loaded group holds; why
 * unknown transports never fail a load; and that a load's outcome does not
 * depend on the order in which the maps were walked.
 */
module InventoryProperties {
  import opened Wrappers
  import opened InventoryModel

  // ---------------------------------------------------------------------------
  // Group resolution
  // ---------------------------------------------------------------------------

  /** A resolved group has one member per kept reference. */
  lemma {:induction false} ResolveGroupLength(refs: seq<string>, hosts: map<string, Host>)
    ensures |ResolveGroup(refs, hosts)| == |KeptIndices(refs, hosts)|
    decreases |refs|
  {
    if refs != [] {
      ResolveGroupLength(refs[..|refs| - 1], hosts);
    }
  }

  /** Position j of a resolved group holds the host named by the j-th kept reference. */
  lemma {:induction false} ResolveGroupAt(refs: seq<string>, hosts: map<string, Host>, j: nat)
    requires j < |KeptIndices(refs, hosts)|
    ensures j < |ResolveGroup(refs, hosts)|
    ensures ResolveGroup(refs, hosts)[j] == hosts[refs[KeptIndices(refs, hosts)[j]]]
    decreases |refs|
  {
    var init := refs[..|refs| - 1];
    var last := refs[|refs| - 1];
    ResolveGroupLength(refs, hosts);
    ResolveGroupLength(init, hosts);
    if j < |KeptIndices(init, hosts)| {
      ResolveGroupAt(init, hosts, j);
      var i := KeptIndices(init, hosts)[j];
      assert refs[i] == init[i];
    }
  }

  /** A resolved group is its references filtered to known names, in order: position j holds the host of the j-th kept index. */
  lemma ResolveGroupFollowsRefs(refs: seq<string>, hosts: map<string, Host>)
    ensures |ResolveGroup(refs, hosts)| == |KeptIndices(refs, hosts)|
    ensures forall j :: 0 <= j < |KeptIndices(refs, hosts)| ==>
              ResolveGroup(refs, hosts)[j] == hosts[refs[KeptIndices(refs, hosts)[j]]]
  {
    ResolveGroupLength(refs, hosts);
    forall j | 0 <= j < |KeptIndices(refs, hosts)|
      ensures ResolveGroup(refs, hosts)[j] == hosts[refs[KeptIndices(refs, hosts)[j]]]
    {
      ResolveGroupAt(refs, hosts, j);
    }
  }

  /** Repeats survive resolution: a known name referenced m times contributes its host m times. */
  lemma {:induction false} ResolveGroupCounts(refs: seq<string>, hosts: map<string, Host>)
    requires NamedByKey(hosts)
    ensures forall n :: n in hosts ==> multiset(ResolveGroup(refs, hosts))[hosts[n]] == multiset(refs)[n]
    decreases |refs|
  {
    if refs != [] {
      var init := refs[..|refs| - 1];
      var last := refs[|refs| - 1];
      assert refs == init + [last];
      ResolveGroupCounts(init, hosts);
      forall n | n in hosts
        ensures multiset(ResolveGroup(refs, hosts))[hosts[n]] == multiset(refs)[n]
      {
        if last in hosts {
          assert hosts[last] == hosts[n] <==> last == n by {
            assert hosts[last].name == last && hosts[n].name == n;
          }
        }
      }
    }
  }

  /** A group whose references are all missing resolves to no hosts. */
  lemma {:induction false} ResolveGroupAllMissing(refs: seq<string>, hosts: map<string, Host>)
    requires forall i :: 0 <= i < |refs| ==> refs[i] !in hosts
    ensures ResolveGroup(refs, hosts) == []
    decreases |refs|
  {
    if refs != [] {
      ResolveGroupAllMissing(refs[..|refs| - 1], hosts);
    }
  }

  // ---------------------------------------------------------------------------
  // Connection options
  // ---------------------------------------------------------------------------

  /** Adding a block under an unknown transport key changes neither the failure verdict nor the decoded table. */
  lemma UnknownKeyHarmless(src: SourceHost, decode: Decoder, k: string, raw: RawOptions)
    requires TransportOf(k).None?
    ensures (HostDecodeFails(src.(connectionOptions := src.connectionOptions[k := raw]), decode)
             <==> HostDecodeFails(src, decode))
    ensures forall opts ::
              (OptionsDecoded(src.(connectionOptions := src.connectionOptions[k := raw]), decode, opts)
               <==> OptionsDecoded(src, decode, opts))
  {
    var src' := src.(connectionOptions := src.connectionOptions[k := raw]);
    assert forall c :: FailsAt(src', decode, c) <==> FailsAt(src, decode, c) by {
      forall c ensures FailsAt(src', decode, c) <==> FailsAt(src, decode, c) {
        if c != k {
          assert c in src'.connectionOptions <==> c in src.connectionOptions;
        }
      }
    }
    assert forall c :: Kept(src', decode, c) <==> Kept(src, decode, c) by {
      forall c ensures Kept(src', decode, c) <==> Kept(src, decode, c) {
        if c != k {
          assert c in src'.connectionOptions <==> c in src.connectionOptions;
        }
      }
    }
  }

  /** The decoded option table of a host is determined by its source and the decoder. */
  lemma OptionsDecodedUnique(src: SourceHost, decode: Decoder, a: map<string, ConnOptions>, b: map<string, ConnOptions>)
    requires OptionsDecoded(src, decode, a) && OptionsDecoded(src, decode, b)
    ensures a == b
  {
    assert a.Keys == b.Keys;
  }

  // ---------------------------------------------------------------------------
  // The whole load
  // ---------------------------------------------------------------------------

  /** Any rejected "ssh" or "netconf" block of any host fails the whole load. */
  lemma DecodeFailureIsFatal(doc: Document, decode: Decoder, r: Result<Inventory, LoadError>, warnings: seq<Warning>, n: string, k: string)
    requires Loaded(doc, decode, r, warnings)
    requires n in doc.hosts && k in doc.hosts[n].connectionOptions
    requires k in {SshKey, NetconfKey}
    requires decode(TransportOf(k).value, doc.hosts[n].connectionOptions[k]).DecodeError?
    ensures r.Err?
  {
    assert FailsAt(doc.hosts[n], decode, k);
  }

  /** Every member of every loaded group is a host of the inventory, the one stored under its name. */
  lemma GroupMembersAreHosts(doc: Document, decode: Decoder, r: Result<Inventory, LoadError>, warnings: seq<Warning>)
    requires Loaded(doc, decode, r, warnings) && r.Ok?
    ensures forall g, j :: g in r.value.groups && 0 <= j < |r.value.groups[g].hosts| ==>
              r.value.groups[g].hosts[j].name in r.value.hosts &&
              r.value.hosts[r.value.groups[g].hosts[j].name] == r.value.groups[g].hosts[j]
  {
    var inv := r.value;
    forall g, j | g in inv.groups && 0 <= j < |inv.groups[g].hosts|
      ensures inv.groups[g].hosts[j].name in inv.hosts && inv.hosts[inv.groups[g].hosts[j].name] == inv.groups[g].hosts[j]
    {
      var h := inv.groups[g].hosts[j];
      if g in doc.groups {
        assert h in inv.hosts.Values;
      } else {
        assert g == AllGroupName;
        assert h in multiset(inv.groups[g].hosts);
        assert h in inv.hosts.Values;
      }
      var n :| n in inv.hosts && inv.hosts[n] == h;
      assert HostBuilt(n, doc.hosts[n], decode, inv.hosts[n]);
    }
  }

  /** A synthesized "all" group holds each loaded host exactly once. */
  lemma AllGroupHoldsEachHostOnce(doc: Document, decode: Decoder, r: Result<Inventory, LoadError>, warnings: seq<Warning>)
    requires Loaded(doc, decode, r, warnings) && r.Ok?
    requires AllGroupName !in doc.groups
    ensures |r.value.groups[AllGroupName].hosts| == |doc.hosts|
    ensures forall n :: n in doc.hosts ==> multiset(r.value.groups[AllGroupName].hosts)[r.value.hosts[n]] == 1
  {
    var inv := r.value;
    assert |inv.hosts| == |inv.hosts.Keys| == |doc.hosts.Keys| == |doc.hosts|;
    forall n | n in doc.hosts
      ensures multiset(inv.groups[AllGroupName].hosts)[inv.hosts[n]] == 1
    {
      assert inv.hosts[n] in inv.hosts.Values;
    }
  }

  /**
   * Every host is in the table before any group is resolved, so a group
   * holds every document host it names, wherever that host is written.
   */
  lemma GroupsSeeEveryHost(doc: Document, decode: Decoder, r: Result<Inventory, LoadError>, warnings: seq<Warning>)
    requires Loaded(doc, decode, r, warnings) && r.Ok?
    ensures forall g, i :: g in doc.groups && 0 <= i < |doc.groups[g].hosts| && doc.groups[g].hosts[i] in doc.hosts ==>
              r.value.hosts[doc.groups[g].hosts[i]] in r.value.groups[g].hosts
  {
  }

  /**
   * The outcome of a load does not depend on the order in which the maps were
   * walked: two loads of one document agree on success, on the host table,
   * on every document group, on the contents of the "all" group and on the
   * set of warnings given.
   */
  lemma LoadIsOrderIndependent(
    doc: Document, decode: Decoder,
    r1: Result<Inventory, LoadError>, w1: seq<Warning>,
    r2: Result<Inventory, LoadError>, w2: seq<Warning>)
    requires Loaded(doc, decode, r1, w1) && Loaded(doc, decode, r2, w2)
    ensures r1.Ok? <==> r2.Ok?
    ensures r1.Ok? && r2.Ok? ==> r1.value.hosts == r2.value.hosts
    ensures r1.Ok? && r2.Ok? ==> forall g :: g in doc.groups ==> r1.value.groups[g] == r2.value.groups[g]
    ensures r1.Ok? && r2.Ok? && AllGroupName !in doc.groups ==>
              multiset(r1.value.groups[AllGroupName].hosts) == multiset(r2.value.groups[AllGroupName].hosts)
    ensures r1.Ok? && r2.Ok? ==> forall w :: w in w1 <==> w in w2
  {
    if r1.Ok? && r2.Ok? {
      var a, b := r1.value.hosts, r2.value.hosts;
      forall n | n in a ensures a[n] == b[n] {
        assert HostBuilt(n, doc.hosts[n], decode, a[n]) && HostBuilt(n, doc.hosts[n], decode, b[n]);
        OptionsDecodedUnique(doc.hosts[n], decode, a[n].connectionOptions, b[n].connectionOptions);
      }
      assert a.Keys == b.Keys;
    }
  }
}
