# Inventory loader of gndc, modelled in Dafny

gndc runs configured commands on network devices. Before anything runs, it
builds a device inventory from a YAML file (`loadInventory`). This model covers
that construction, starting from the already-decoded document. It builds:

- the host table: every document host, stored under its own name, with its
  hostname, its platform, its command list under `Vars["cmds"]`, and its
  connection-option blocks. The blocks are decoded by transport: `ssh` and
  `netconf` are decoded and kept, any other key is warned about and skipped,
  and a block the decoder rejects aborts the whole load;
- the groups: each document group's host names, looked up in the complete host
  table. Found names are kept in order, repeats included. Missing names are
  dropped with a warning;
- the `all` group, holding every host. It is added only when the document does
  not define a group named `all`.

Files:

- `wrappers.dfy`: the `Option` and `Result` datatypes.
- `inventory.dfy` (module `InventoryModel`): the document, the inventory, the
  abstract decoder, and the specification a load must meet (`Loaded`, built
  from `SomeDecodeFails`, `FailureReported`, `HostsBuilt`, `GroupsResolved`,
  `AllGroupSynthesized` and `Warned`).
  It also defines the reference functions `ResolveGroup` and `KeptIndices`.
- `loader.dfy` (module `Loader`): the loops of `loadInventory` as methods, each
  proved against that specification.
- `properties.dfy` (module `InventoryProperties`): lemmas about the
  specification.

Go walks its maps in an unspecified order. The model picks each next key with
`:|`, so the proofs hold for every order. The lemma `LoadIsOrderIndependent`
shows that two loads of one document agree on everything the order does not
decide. The order does decide which failing block is reported, and how the
`all` group is ordered. So those two are stated only as "some block that really
fails" and "the same multiset of hosts".

The option decoder (`mapstructureDecode`) is a parameter of type
`(Transport, RawOptions) -> DecodeResult`, and its decoded values are opaque.
The file read and the YAML unmarshalling are parameters of `LoadInventory`: the
read's outcome, and a function from bytes to a document or an error. Warnings
that Go writes with `log.Printf` are returned as a sequence of `Warning`s.

The unknown-connection-type warning is the `default` case of the switch
(main.go:166-167), so it fires only for keys other than `ssh` and `netconf`.

## Model

| member | source | states |
|---|---|---|
| `InventoryModel.TransportOf` | main.go:153-168 | only the keys "ssh" and "netconf" select a transport, and the selected transport's key is the key itself |
| `InventoryModel.ResolveGroup` | main.go:177-183 | a resolved group is no longer than its reference list; every member is a host of the table; every reference found in the table contributes its host |
| `InventoryModel.KeptIndices` | main.go:177-183 | the kept positions are increasing, each names a host of the table, and every position naming a host of the table is kept |
| `Loader.DecodeConnectionOptions` | main.go:152-169 | fails exactly when some "ssh"/"netconf" block of the host is rejected, reporting that block's transport, host and cause; otherwise yields exactly the accepted known blocks, each decoded into options of its own transport; warns about every unknown key and about nothing else |
| `Loader.LoadHosts` | main.go:142-171 | fails exactly when some host has a rejected known block; on success the table has exactly the document's host names, each entry named by its key with the source hostname, platform, `cmds` and decoded options; every unknown-key warning and only those |
| `Loader.ResolveGroupRefs` | main.go:174-184 | the group is named by its key and holds `ResolveGroup` of its references; each reference is either kept or warned about; a warning is given exactly for each missing name |
| `Loader.LoadGroups` | main.go:173-185 | exactly the document's groups, each resolved against the complete host table; a missing-host warning exactly for each (group, missing name) pair |
| `Loader.AllGroup` | main.go:187-194 | the group is named "all", has one member per host, holds only hosts of the table and every one of them; when hosts are stored under their names it equals the table's values as a multiset |
| `Loader.BuildInventory` | main.go:141-196 | meets `Loaded`: an error exactly when a known block fails to decode, naming a real failure; otherwise host table, document groups untouched by "all" synthesis, "all" added only when absent and holding every host once, warnings exactly the justified ones |
| `Loader.LoadInventory` | main.go:106-197 | a failed read gives a read error, a failed unmarshal gives an unmarshal error, both with no warnings; otherwise the outcome of `BuildInventory` |
| `InventoryProperties.ResolveGroupLength` | main.go:177-183 | a resolved group has exactly one member per reference whose name is in the table |
| `InventoryProperties.ResolveGroupAt` | main.go:177-183 | the j-th member of a resolved group is the host stored under the name at the j-th kept position |
| `InventoryProperties.ResolveGroupFollowsRefs` | main.go:177-183 | the j-th member of a resolved group is the host named by the j-th kept reference, so order is preserved and only missing names are dropped |
| `InventoryProperties.ResolveGroupCounts` | main.go:177-183 | a known name referenced m times contributes its host exactly m times |
| `InventoryProperties.ResolveGroupAllMissing` | main.go:178-182 | a group whose names are all missing resolves to no hosts |
| `InventoryProperties.UnknownKeyHarmless` | main.go:166-168 | adding a block under an unknown transport key changes neither whether the host fails to decode nor its decoded option table |
| `InventoryProperties.OptionsDecodedUnique` | main.go:152-169 | a host's decoded option table is determined by its blocks and the decoder |
| `InventoryProperties.DecodeFailureIsFatal` | main.go:154-165 | a rejected "ssh" or "netconf" block of any host makes the load return an error and no inventory |
| `InventoryProperties.GroupMembersAreHosts` | main.go:173-194 | every member of every loaded group, "all" included, is the host the table stores under that member's name |
| `InventoryProperties.AllGroupHoldsEachHostOnce` | main.go:187-194 | a synthesized "all" group has as many members as the document has hosts and holds each loaded host exactly once |
| `InventoryProperties.GroupsSeeEveryHost` | main.go:142-185 | a group holds every document host it names, wherever that host is written, because all hosts are inserted before any group is resolved |
| `InventoryProperties.LoadIsOrderIndependent` | main.go:142-194 | two loads of one document agree on success, on the host table, on every document group, on the multiset of the "all" group and on the set of warnings |

## Left out

- `main()` (main.go:23-103) is not modelled. It runs one goroutine per host, hands commands to the gornir runner (`RunSync`), and prints the results. That is concurrency plus calls into a framework whose source is not part of this model. It also reads `Vars["cmds"]` back as `[]interface{}` although the loader stores a `[]string` (main.go:57 against main.go:149).
- `os.ReadFile` and `yaml.Unmarshal` (main.go:107-110, 136-139) are file I/O and the YAML grammar. They appear only as parameters of `LoadInventory`.
- The internals of `mapstructure` and of `ssh.Options`/`netconf.Options` (main.go:155-165, 200-209) are foreign library code. The decoder is an abstract parameter. Raw blocks are maps from field name to text, and decoded options are opaque values.
- Go's groups hold pointers to the same host objects as the table. The model holds host values, which suffices because no host changes after it is inserted. Pointer identity is not modelled.
- `Loader.BuildInventory`: warnings are stated as a set, with no multiplicity or order. On the error path they are only stated to be justified, because which ones were logged before the failure depends on map order. Per group, `Loader.ResolveGroupRefs` does state the count.
- `my-app.py` is not modelled. It is a separate Nornir/netmiko script that does device I/O and writes files, and it has no logic of its own.
