# BlueCat Address Manager modules for Ansible, modelled in Dafny

This project models the Ansible modules that manage BlueCat Address Manager
resources through its REST API (v2). It covers the shared base class
(`plugins/module_utils/bc_util.py`) and the sixteen resource modules:

- access rights, deployment roles, networks, user-defined links, blocks;
- addresses, host records, zones, configurations, alias records;
- collection tags, groups, views, tag groups, tags, server deployments.

Every module run follows the same lifecycle:

1. log in;
2. look up the current remote record;
3. build the desired body;
4. compare the two;
5. issue at most one create, update or delete;
6. log out and report `changed`.

The model follows that lifecycle.

- **The API** is a read-only function `api: Query -> Response`. It answers
  every GET the modules make with `{count, data}`.
- **Python's `ipaddress` parsers** are functions in the same environment
  (`Env`). So is Ansible's check-mode flag.
- **One run** of a module's `exec_module` is a function `Exec(p, env)`
  returning an `Outcome`:
  - `Exit(changed, call)` carries the one mutating request, if any. The
    request is a `Post`, `Put` or `Delete` with its path, body and headers.
  - `Fail(msg)` is `fail_json`.
  - `Crash(error)` is a Python exception escaping the module. The source
    raises many of these: KeyError, NameError, AttributeError, IndexError,
    TypeError and ValueError.
- **Request bodies** are ordered sequences of key/value pairs. Every
  `compare_data` loop visits them in insertion order, and the order decides
  which difference or exception comes first. Decoded JSON objects are maps,
  since Python compares dicts without regard to order.
- **The `compare_data` loops** share one reference function,
  `Compare.Scan`. A `while` loop (`Compare.CompareItems`) is proved equal
  to it. Each module supplies its per-item rule.
- **Loops that build data or search nested lists** are methods with loop
  invariants, proved equal to recursive specification functions:
  - host record addresses;
  - network default zones;
  - deployment-role search and compare.
- **Idempotence.** Each resource has a lemma relating it to what the
  server has stored. It holds exactly when a second `present` run changes
  nothing.
- **Session lifecycle.** The lifecycle shared by all modules is a class
  `BcUtil.Session`. Its methods log out before every exit or failure.

The model follows the code, including these behaviours, which a reader
of the module documentation might not expect:

- **Parent block.** A block's parent is the first containing block in
  whatever order the server returns (`block.py:75-86`), not the most
  specific one. A network's parent is the last block of the range-ordered
  lookup (`network.py:69-81`).
- **A network without a parent block** is posted to `/blocks/None/networks`.
  It is not created at the top of its configuration.
- **Preconditions come after the lookup.** The IPv6 prefix check
  (`network.py:33-41`) and the IPv6 RESERVED check (`address.py:31-53`)
  both run after the existence lookup. They still run before any mutation.
- **Default zones** compare as ordered lists of ids (`network.py:157-161`),
  not as sets.
- **Host-record addresses** are compared in one direction only
  (`host_record.py:132-143`): a stored address that was not requested is a
  difference, but a requested address that is not stored goes unnoticed.
- **`absent` deletes even when nothing was found** for blocks, networks,
  zones, configurations, addresses and alias records. The request targets
  `.../None`.

## Model

| member | source | states |
|---|---|---|
| BcUtil.NameFilters | plugins/module_utils/bc_util.py:85-219 | the authenticator, configuration, tag, tag group, group and user lookups filter on `name:eq("<name>")`, the name double-quoted |
| BcUtil.RangeFilters | plugins/module_utils/bc_util.py:98-133 | the block and network lookups filter on `configuration.name:eq("<c>") and range:eq("<r>")`, both quoted |
| BcUtil.ZoneFilter | plugins/module_utils/bc_util.py:135-145 | the zone lookup filters on `configuration.name:eq("<c>") and absoluteName:eq("<fqdn>")` |
| BcUtil.ViewFilter | plugins/module_utils/bc_util.py:222-233 | the view lookup filters on `configuration.name:eq("<c>") and name:eq("<name>")` |
| BcUtil.GetAdministrativeAccessRight | plugins/module_utils/bc_util.py:56-66 | None exactly when no administrative right matches, else the first match |
| BcUtil.GetAccessRightByResourceId | plugins/module_utils/bc_util.py:68-83 | None exactly when no right on the resource matches, else the first match |
| BcUtil.GetAuthenticatorByName | plugins/module_utils/bc_util.py:85-96 | None exactly when no authenticator has the name, else the first match |
| BcUtil.GetBlockByRange | plugins/module_utils/bc_util.py:98-108 | None exactly when no block has the range, else the first match |
| BcUtil.GetConfigurationByName | plugins/module_utils/bc_util.py:110-121 | None exactly when no configuration has the name, else the first match |
| BcUtil.GetNetworkByRange | plugins/module_utils/bc_util.py:123-133 | None exactly when no network has the range, else the first match |
| BcUtil.GetZoneByFqdn | plugins/module_utils/bc_util.py:135-145 | None exactly when no zone has the absolute name, else the first match |
| BcUtil.GetTag | plugins/module_utils/bc_util.py:147-157 | None exactly when no tag has the name, else the first match |
| BcUtil.GetTagGroup | plugins/module_utils/bc_util.py:184-194 | None exactly when no tag group has the name, else the first match |
| BcUtil.GetGroupByName | plugins/module_utils/bc_util.py:196-207 | None exactly when no group has the name, else the first match |
| BcUtil.GetUserByName | plugins/module_utils/bc_util.py:209-220 | None exactly when no user has the name, else the first match |
| BcUtil.GetViewByName | plugins/module_utils/bc_util.py:222-233 | None exactly when no view of the configuration has the name, else the first match |
| BcUtil.AdministrativeFilter | plugins/module_utils/bc_util.py:56-66 | the administrative access-right lookup quotes the type `AdministrativeAccessRight` and writes the user id bare |
| BcUtil.ResourceFilter | plugins/module_utils/bc_util.py:68-83 | the access-right lookup by resource writes both the resource id and the user id bare |
| BcUtil.First | plugins/module_utils/bc_util.py:85-96 | a lookup yields None exactly when the count is 0, else the first record; an empty page with a non-zero count raises IndexError |
| BcUtil.FirstOrEmpty | plugins/modules/block.py:29-33 | `get_x() or dict()`: no match is the empty record |
| BcUtil.FirstId | plugins/modules/block.py:63-73 | an id lookup yields None for no match, the first record's id otherwise, KeyError when that record has no id |
| BcUtil.LastId | plugins/modules/network.py:69-81 | the last record's id, None for no match |
| BcUtil.RequireConfigurationId | plugins/modules/block.py:63-73 | fails with "No configuration with name X found!" exactly when the configuration lookup is empty |
| BcUtil.ResourceIdArgument | plugins/module_utils/bc_util.py:68-71 | a missing resource id is written `null` in the filter |
| BcUtil.NullResourceFilter | plugins/module_utils/bc_util.py:68-79 | the access-right filter for no resource is `resource.id:eq(null) and userScope.id:eq(<id>)` |
| BcUtil.GetTagUnderParent | plugins/module_utils/bc_util.py:159-182 | both tag-under-parent lookups always raise NameError on the unbound `parent_id` |
| BcUtil.ArgumentSpec | plugins/module_utils/bc_util.py:10-21 | the argument spec has the connection keys, the fact keys for fact modules and the module's own keys; later sources win |
| BcUtil.FactDefaults | plugins/module_utils/bc_util.py:14-20 | fact modules require `filter` and default `limit` to 100 |
| BcUtil.Lifecycle | plugins/module_utils/bc_util.py:31-54 | a run starts with the login |
| BcUtil.LifecycleOrder | plugins/module_utils/bc_util.py:31-54 | every exit or failure comes right after a logout; at most one request, before the logout; only an exception leaves the session logged in |
| BcUtil.Session.Run | plugins/module_utils/bc_util.py:31-36 | constructing a module logs in, runs it and ends the run; its events are the lifecycle |
| BcUtil.Session.Logout | plugins/module_utils/bc_util.py:42-43 | logging out records one logout event |
| BcUtil.Session.FailJson | plugins/module_utils/bc_util.py:48-50 | logs out, then fails |
| BcUtil.Session.ExitJson | plugins/module_utils/bc_util.py:52-54 | logs out, then exits with `changed` |
| BcUtil.Session.Finish | plugins/module_utils/bc_util.py:35-36 | an exit sends its request then exits, a failure fails, an exception ends the run without logout |
| Outcomes.Mutate | plugins/modules/block.py:119-124 | a delete helper reports `changed` and sends its request exactly when not in check mode |
| Outcomes.Send | plugins/modules/block.py:99-117 | a create or update helper reports `changed`; in check mode it neither builds nor sends; otherwise it sends the built body, or the exception of building it |
| Outcomes.IsV4Network | plugins/modules/block.py:126-144 | an unparsable range raises ValueError; otherwise whether it is IPv4 |
| Outcomes.IsV4Address | plugins/modules/address.py:118-132 | an unparsable address raises ValueError; otherwise whether it is IPv4 |
| Values.EmptyAsNone | plugins/modules/block.py:129-132 | an empty or missing name is sent as None, any other name as itself |
| Compare.CompareItems | plugins/modules/block.py:146-151 | the comparison loop with its early returns equals the reference `Scan` |
| Compare.Scan | plugins/modules/block.py:146-151 | the reference loop: an empty payload never differs, and the loop raises only when some item raises |
| Compare.ScanSame | plugins/modules/block.py:146-151 | no difference is reported exactly when every item is the same |
| Compare.ScanDiffers | plugins/modules/block.py:146-151 | a difference is reported exactly when some item differs and all before it are the same |
| Compare.ScanTotal | plugins/modules/block.py:146-151 | a rule that never raises makes the loop report whether any item differs |
| Compare.ScanOutcomes | plugins/modules/block.py:146-151 | the loop returns a bool or the exception of one of its items |
| Compare.ScanAgree | plugins/modules/zone.py:136-143 | rules that agree on every item give the same result |
| Compare.ScanAppendSame | plugins/modules/group.py:94-101 | items judged the same do not change the verdict |
| Compare.Inner | plugins/modules/network.py:162-165 | an inner loop used as one outer iteration is Same, Differs or Raises exactly as its own loop returns False, True or raises |
| Compare.StrictItem | plugins/modules/block.py:146-151 | an item is the same exactly when the remote key holds the value; it raises exactly when the key is missing |
| Compare.StrictNoDiff | plugins/modules/block.py:146-151 | strict comparison finds no difference exactly when the record holds the whole payload |
| Compare.SkipNoDiff | plugins/modules/zone.py:136-143 | with skipped keys, no difference exactly when the record holds every other item |
| Compare.SkipAbsentKeys | plugins/modules/zone.py:136-143 | skipping keys the payload lacks is strict comparison |
| Compare.PresentEqualDiff | plugins/modules/tag_group.py:90-95 | the missing-or-unequal rule never raises and reports a difference exactly when the record does not hold the payload |
| Compare.StrictRaisesOnlyOnMissingKey | plugins/modules/block.py:146-151 | when every key is present, strict comparison does not raise |
| Block.ParentQuery | plugins/modules/block.py:75-86 | the parent lookup pages 100 blocks with no ordering |
| Block.ParentFilter | plugins/modules/block.py:76-78 | the parent lookup's filter is `configuration.name:eq("<configuration>") and range:contains("<address>")`, the address being the range up to its slash |
| Block.Payload | plugins/modules/block.py:126-144 | keys name, range, user-defined fields when given, the three zone flags only for IPv4, type last; an empty name is None |
| Block.BuildData | plugins/modules/block.py:126-144 | a bad range raises ValueError; otherwise the payload for its IP version |
| Block.FindParentId | plugins/modules/block.py:75-86 | the id of the first block the parent lookup returns, None when it returns none |
| Block.CompareData | plugins/modules/block.py:146-151 | a failure to build the payload ends the comparison; no difference exactly when the block stores the whole payload |
| Block.UpdateBlock | plugins/modules/block.py:109-117 | in check mode a change is reported and nothing is built or sent; otherwise the built body is PUT to `/blocks/{id}`, or building it ends the run with its exception |
| Block.CreateSubBlock | plugins/modules/block.py:99-107 | in check mode a change is reported and nothing is built or sent; otherwise the built body is POSTed to `/blocks/{parent}/blocks`, or building it ends the run with its exception |
| Block.CreateTopBlock | plugins/modules/block.py:88-97 | the configuration is looked up before the check-mode test, and a missing one fails with "No configuration with name X found!" in either mode; otherwise check mode only reports a change, and outside it the built body is POSTed to `/configurations/{id}/blocks`, or building it ends the run |
| Block.Exec | plugins/modules/block.py:29-49 | only `present` writes and only `absent` deletes; what is written is the built body; a PUT or DELETE targets `/blocks/{id}` of the looked-up block; a POST only when nothing was found; nothing is sent in check mode |
| Block.PresentFound | plugins/modules/block.py:41-44 | a found block is updated exactly when the comparison differs |
| Block.PresentMissing | plugins/modules/block.py:45-47 | a missing block is created under the parent when there is one, else at the top |
| Block.Idempotent | plugins/modules/block.py:41-44 | a found block is left alone exactly when it stores every built item |
| Block.AbsentDeletesUnfound | plugins/modules/block.py:48-49 | with no block found, `absent` deletes `/blocks/None` |
| Block.AbsentDeletes | plugins/modules/block.py:48-49 | `absent` deletes `/blocks/{id}` of whatever the lookup returned, without headers |
| Block.CheckModeTopBlockNeedsConfiguration | plugins/modules/block.py:88-97 | in check mode a top block still fails without its configuration, and reports a change with it |
| Zone.AbsoluteName | plugins/modules/zone.py:50-63 | the looked-up name is `name.zone` when a parent zone is given, else the name |
| Zone.BuildData | plugins/modules/zone.py:126-134 | keys name, deploymentEnabled, dynamicUpdateEnabled, signed, type `Zone` |
| Zone.CompareData | plugins/modules/zone.py:136-143 | the comparison skips the dotted-record flag, which the payload lacks |
| Zone.CompareIsStrict | plugins/modules/zone.py:136-143 | the zone comparison is strict and finds no difference exactly when the record holds the payload |
| Zone.CreateTopZone | plugins/modules/zone.py:88-97 | the view is looked up before the check-mode test, so a failing view lookup ends the run even in check mode; otherwise check mode only reports a change, and outside it the built body is posted to `/views/{view}/zones` (view None when unknown) |
| Zone.Exec | plugins/modules/zone.py:29-48 | only `present` writes the built body; only `absent` deletes; a PUT or DELETE targets `/zones/{id}` of the looked-up zone; a POST only when nothing was found; nothing in check mode |
| Zone.PresentMissing | plugins/modules/zone.py:37-42 | with no zone found, `present` creates it: with a parent named, under `/zones/{parent}/zones` (a failing parent lookup ends the run); without one, as a top zone of the view |
| Zone.Idempotent | plugins/modules/zone.py:37-40 | a found zone is left alone exactly when it stores the payload |
| Zone.PresentFound | plugins/modules/zone.py:33-36 | a found zone is put to `/zones/{id}` exactly when the comparison differs, left alone when it does not, and a raising comparison ends the run |
| Zone.MissingParentPostsUnderNone | plugins/modules/zone.py:77-107 | a sub-zone whose parent is not found is posted to `/zones/None/zones` |
| Zone.AbsentDeletesUnfound | plugins/modules/zone.py:46-48 | with no zone found, `absent` deletes `/zones/None` |
| Zone.AbsentDeletes | plugins/modules/zone.py:43-44 | `absent` deletes `/zones/{id}` of whatever the lookup returned |
| Configuration.ConfigurationQuery | plugins/modules/configuration.py:53-63 | configurations are looked up with a page of 100000 |
| Configuration.BuildData | plugins/modules/configuration.py:92-112 | the 17 keys in order, the description None when unset |
| Configuration.BuildDataValues | plugins/modules/configuration.py:92-112 | each of the 17 values is the parameter of the same name, unchanged: the name and the validation levels as strings, the flags as booleans, the description as a string or None |
| Configuration.CompareData | plugins/modules/configuration.py:114-119 | no difference exactly when the configuration stores the whole payload |
| Configuration.CreateConfiguration | plugins/modules/configuration.py:65-73 | creation posts the built body to `/configurations`; check mode only reports a change |
| Configuration.UpdateConfiguration | plugins/modules/configuration.py:75-83 | an update puts the built body |
| Configuration.Exec | plugins/modules/configuration.py:38-51 | only `present` writes the built body; a POST to `/configurations` happens only when the found record has no id; a PUT or DELETE targets `/configurations/{id}` |
| Configuration.Idempotent | plugins/modules/configuration.py:41-45 | a configuration with an id is left alone exactly when it stores the payload |
| Configuration.PresentFound | plugins/modules/configuration.py:42-46 | a configuration with an id is put to `/configurations/{id}` exactly when the comparison differs |
| Configuration.NullIdCreates | plugins/modules/configuration.py:41-43 | a lookup without an id creates the configuration |
| Configuration.AbsentDeletesUnfound | plugins/modules/configuration.py:49-50 | with nothing found, `absent` deletes `/configurations/None` |
| Configuration.AbsentDeletes | plugins/modules/configuration.py:47-48 | `absent` deletes `/configurations/{id}` of whatever the lookup returned |
| Values.NameBody | plugins/modules/view.py:93-97 | the body of a view, and likewise of a tag, is the name alone |
| View.CompareData | plugins/modules/view.py:99-104 | strict comparison of the name |
| View.Exec | plugins/modules/view.py:23-40 | only `present` writes; a PUT targets `/views/{id}` of the found view; a POST only when nothing was found; `absent` raises AttributeError on the missing `delete_network` |
| View.Idempotent | plugins/modules/view.py:27-31 | a found view is left alone exactly when it stores its name |
| View.PresentFound | plugins/modules/view.py:28-31 | a found view is put to `/views/{id}` exactly when the comparison differs |
| View.CreateNeedsConfiguration | plugins/modules/view.py:42-74 | creating a view fails without its configuration and posts under it otherwise |
| TagGroup.BuildData | plugins/modules/tag_group.py:83-88 | keys name and userDefinedFields, None when unset |
| TagGroup.CompareData | plugins/modules/tag_group.py:90-95 | the group differs exactly when it does not hold the payload |
| TagGroup.Exec | plugins/modules/tag_group.py:26-41 | no tag group found raises AttributeError; a PUT or DELETE targets `/tagGroups/{id}` of a found group; a POST to `/tagGroups/` only for an empty match; the delete carries the headers |
| TagGroup.Idempotent | plugins/modules/tag_group.py:30-33 | a found tag group is left alone exactly when it holds the payload |
| TagGroup.PresentFound | plugins/modules/tag_group.py:29-32 | a found group is put to `/tagGroups/{id}` exactly when it does not hold the payload |
| TagGroup.AbsentDeletes | plugins/modules/tag_group.py:35-37 | `absent` deletes a found group by its id with the headers and leaves an empty match alone |
| Tag.GetParent | plugins/modules/tag.py:33-47 | the parent is the named tag, else the named tag group; with neither, NameError |
| Tag.CreateTag | plugins/modules/tag.py:52-63 | the new tag is posted under `/tags/{parent}/tags` when a parent tag is named, else under `/tagGroups/{parent}/tags` |
| Tag.Exec | plugins/modules/tag.py:33-50 | an existing tag is never changed; any POST carries the built body; `absent` sends `DELETE /tags/{id}` of the found tag, with the headers |
| Tag.MissingParentRaises | plugins/modules/tag.py:36-42 | a parent tag, or with no parent tag named a tag group, that is not found raises AttributeError before any request |
| Tag.CreateUnderTag | plugins/modules/tag.py:36-63 | a missing tag with a parent tag named is posted to `/tags/{parent}/tags` with the built body |
| Tag.CreateInTagGroup | plugins/modules/tag.py:39-63 | a missing tag with only a tag group named is posted to `/tagGroups/{group}/tags` with the built body |
| Tag.AbsentDeletes | plugins/modules/tag.py:43-46 | `absent` deletes a found tag by its id with the headers and leaves a missing one alone |
| ServerDeployment.ServerQuery | plugins/modules/server_deployment.py:36-46 | the server is looked up by name, one record |
| ServerDeployment.BuildData | plugins/modules/server_deployment.py:48-53 | keys type and service |
| ServerDeployment.DeploymentHeaders | plugins/modules/server_deployment.py:24-34 | the JSON content type plus the forced zone retransfer header |
| ServerDeployment.Exec | plugins/modules/server_deployment.py:24-34 | a differential deployment of a service other than DNS fails; otherwise the deployment is posted to `/servers/{server}/deployments` of the looked-up server, with the built body and headers, and a failing server lookup ends the run |
| Group.ResolveAuthenticator | plugins/modules/group.py:29-63 | only LDAP groups resolve an authenticator, giving the found id and type LDAP; an unfound one fails with "Could not find authenticator <name>of type LDAP"; a failing lookup ends the run |
| Group.BuildData | plugins/modules/group.py:103-112 | keys name, groupType, administratorPrivilege, and the authenticator exactly when its id is truthy |
| Group.CompareData | plugins/modules/group.py:94-101 | no difference exactly when the group stores every payload item except the authenticator |
| Group.AuthenticatorIgnored | plugins/modules/group.py:94-101 | the authenticator never affects the comparison |
| Group.Exec | plugins/modules/group.py:29-63 | a failed authenticator lookup ends the run; only PUT or DELETE are sent, to `/groups/{id}` of a found group; the delete carries the headers |
| Group.Idempotent | plugins/modules/group.py:29-63 | a found group, LDAP included once its authenticator resolves, is left alone exactly when it holds the payload |
| Group.PresentFound | plugins/modules/group.py:50-54 | a found group is put to `/groups/{id}` exactly when the comparison differs |
| Group.AbsentDeletes | plugins/modules/group.py:57-59 | `absent` deletes a found group by its id with the headers and leaves a missing one alone |
| Group.MissingGroupRaises | plugins/modules/group.py:29-63 | creating a group raises NameError on the unbound `data` |
| AliasRecord.RecordQuery | plugins/modules/alias_record.py:43-53 | the record is looked up under its zone |
| AliasRecord.GetLinkedRecord | plugins/modules/alias_record.py:96-110 | an unfound linked record fails with "Did not find X"; otherwise the reference has the found id and type |
| AliasRecord.BuildData | plugins/modules/alias_record.py:112-118 | keys name, type AliasRecord, linkedRecord |
| AliasRecord.AliasItem | plugins/modules/alias_record.py:120-128 | the linked record compares by id only; other keys strictly |
| AliasRecord.CompareData | plugins/modules/alias_record.py:120-128 | the payload, with its linked-record lookup, is built before comparing; a failure to build it ends the comparison, and otherwise only a raising item does |
| AliasRecord.Exec | plugins/modules/alias_record.py:25-41 | only `present` writes the built body; a POST goes to `/zones/{zone}/resourceRecords` only when nothing was found; a PUT or DELETE targets `/resourceRecords/{id}`; the delete carries the headers |
| AliasRecord.Idempotent | plugins/modules/alias_record.py:25-41 | a found record is left alone exactly when name, type and linked id are stored |
| AliasRecord.PresentFound | plugins/modules/alias_record.py:30-33 | a found record is put to `/resourceRecords/{id}` exactly when the comparison differs |
| AliasRecord.PresentMissing | plugins/modules/alias_record.py:34-118 | with no record found, `present` outside check mode posts name, type and linked reference to `/zones/{zone}/resourceRecords`, and fails with "Did not find" when the linked record is unknown |
| AliasRecord.CheckModeCreateSkipsLink | plugins/modules/alias_record.py:68-76 | check mode reports a creation without looking up the linked record |
| AliasRecord.AbsentDeletesUnfound | plugins/modules/alias_record.py:88-94 | with nothing found, `absent` deletes `/resourceRecords/None` |
| AliasRecord.AbsentDeletes | plugins/modules/alias_record.py:36-37 | `absent` deletes `/resourceRecords/{id}` of whatever the lookup returned, with the headers |
| CollectionTag.CheckParent | plugins/modules/collection_tag.py:37-81 | a parent tag or tag group that is not found fails |
| CollectionTag.CollectionId | plugins/modules/collection_tag.py:37-81 | a found network or block gives its id; an unfound one fails with its message |
| CollectionTag.LinkedTagIds | plugins/modules/collection_tag.py:83-88 | the ids of the linked tags, in order; none when the count is 0 |
| CollectionTag.BuildData | plugins/modules/collection_tag.py:109-113 | the body is the tag id |
| CollectionTag.Observe | plugins/modules/collection_tag.py:37-71 | the parent and collection failures end the run first; an unknown tag fails with "Tag does not exist!"; otherwise the collection id, the linked tag ids and the tag's id |
| CollectionTag.Exec | plugins/modules/collection_tag.py:37-81 | changes exactly when `present` and the tag is unlinked or `absent` and it is linked; links by POST of the tag id to /<collection>/<id>/tags and unlinks by DELETE of /<collection>/<id>/tags/<tag id> |
| CollectionTag.Idempotent | plugins/modules/collection_tag.py:37-81 | a second run in the same state changes nothing |
| AccessRight.ResourceId | plugins/modules/access_right.py:41-65 | without a configuration, or with another resource type, no resource (None); otherwise an unfound network, block or zone fails and a found one gives its id |
| AccessRight.UserScopeId | plugins/modules/access_right.py:67-78 | an unfound user or group fails and a found one gives its id; another scope type raises NameError |
| AccessRight.Observe | plugins/modules/access_right.py:41-89 | the resource and the user scope are resolved first; an administrative right is looked up by the user scope, any other by resource and user scope |
| AccessRight.BuildData | plugins/modules/access_right.py:136-162 | type (the kind) and userScope first; administrative rights, or the six access keys each holding its own parameter; the resource last exactly when its id is truthy |
| AccessRight.CompareData | plugins/modules/access_right.py:164-171 | no difference exactly when the right stores every payload item except the user scope |
| AccessRight.Exec | plugins/modules/access_right.py:39-105 | `present` writes the built body, POST to `/accessRights` exactly when no right exists; a PUT or DELETE targets `/accessRights/{id}` of the existing right; the delete carries the headers |
| AccessRight.Idempotent | plugins/modules/access_right.py:164-171 | an existing right is left alone exactly when it holds every item except the user scope |
| AccessRight.PresentMissing | plugins/modules/access_right.py:92-98 | with no right, `present` posts the built body to `/accessRights` |
| AccessRight.PresentFound | plugins/modules/access_right.py:92-96 | an existing right is put to `/accessRights/{id}` exactly when the comparison differs |
| AccessRight.AbsentDeletes | plugins/modules/access_right.py:99-101 | `absent` deletes an existing right by its id with the headers and leaves a missing one alone |
| Address.MacValue | plugins/modules/address.py:118-132 | a MAC object exactly when a MAC address is given |
| Address.Payload | plugins/modules/address.py:118-132 | keys address, name, state, macAddress, type |
| Address.BuildData | plugins/modules/address.py:118-132 | a bad address raises ValueError |
| Address.AddressOf | plugins/modules/address.py:134-141 | the stored MAC's address is readable exactly when it is an object with an address |
| Address.AddressItem | plugins/modules/address.py:134-141 | the MAC compares by address or whole value; other keys strictly |
| Address.CompareData | plugins/modules/address.py:134-141 | the payload is built before comparing; a failure to build it ends the comparison, and otherwise only a raising item does |
| Address.ReservedCheck | plugins/modules/address.py:31-53 | a RESERVED IPv6 address fails |
| Address.Exec | plugins/modules/address.py:31-53 | no request unless the reservation check passes; only `present` writes the built body; a PUT or DELETE targets `/addresses/{id}`; a POST goes under the resolved network only when nothing was found |
| Address.Idempotent | plugins/modules/address.py:31-53 | a found address is left alone exactly when it stores every item and a matching MAC |
| Address.PresentFound | plugins/modules/address.py:38-41 | a found address is put to `/addresses/{id}` exactly when the comparison differs |
| Address.ReservedIpv6Fails | plugins/modules/address.py:31-53 | a RESERVED IPv6 address fails after the lookup |
| Address.PresentMissing | plugins/modules/address.py:38-99 | with no address found and the reservation check passed, `present` posts the built body to `/networks/{network}/addresses` of the network containing the address, or ends the run with the build's exception |
| Address.AbsentDeletesUnfound | plugins/modules/address.py:111-116 | with nothing found and the reservation check passed, `absent` deletes `/addresses/None` |
| Address.AbsentDeletes | plugins/modules/address.py:48-49 | `absent` deletes `/addresses/{id}` of whatever the lookup returned, once the reservation check passed |
| UserDefinedLink.NetworkQuery | plugins/modules/user_defined_link.py:106-117 | the network lookup embeds its links |
| UserDefinedLink.EndId | plugins/modules/user_defined_link.py:34-60 | only networks can be linked; other kinds fail |
| UserDefinedLink.BuildData | plugins/modules/user_defined_link.py:119-129 | keys id, linkDescription, linkDefinition |
| UserDefinedLink.CompareData | plugins/modules/user_defined_link.py:131-140 | no difference exactly when the destination and definition ids match |
| UserDefinedLink.CompareBuilt | plugins/modules/user_defined_link.py:131-140 | a link that holds the built body compares equal |
| UserDefinedLink.Exec | plugins/modules/user_defined_link.py:34-60 | lookup failures end the run; `present` posts the built link under the source exactly when no link is found; `absent` always fails |
| UserDefinedLink.Observe | plugins/modules/user_defined_link.py:34-47 | the definition, source and destination lookups fail in that order; on success each field is its lookup and the link is the one found under the source |
| UserDefinedLink.PresentCreatesUnlinked | plugins/modules/user_defined_link.py:34-51 | with every lookup resolved, `present` posts the built link exactly when the link lookup finds nothing, and a zero count always posts |
| UserDefinedLink.OnlyNetworks | plugins/modules/user_defined_link.py:34-60 | any source kind other than networks fails |
| HostRecord.RecordQuery | plugins/modules/host_record.py:44-57 | the record is looked up under `/resourceRecords`, one match, its addresses embedded |
| HostRecord.RecordFilter | plugins/modules/host_record.py:45-47 | the record's filter quotes the configuration, the view and the absolute name `name.zone` |
| HostRecord.AddressEntry | plugins/modules/host_record.py:100-118 | a failing address lookup ends the run; an address is referenced by exactly its looked-up id when that id is truthy, by value otherwise |
| HostRecord.AddressEntries | plugins/modules/host_record.py:100-118 | one entry per address, in order |
| HostRecord.EntriesStopPropagates | plugins/modules/host_record.py:100-118 | the first failing address ends the loop |
| HostRecord.BuildAddresses | plugins/modules/host_record.py:100-118 | the address loop equals its specification |
| HostRecord.BuildData | plugins/modules/host_record.py:100-118 | keys name, type, reverseRecord, addresses; no address list raises TypeError |
| HostRecord.EmbeddedVerdict | plugins/modules/host_record.py:132-143 | the same exactly when every stored address is among the requested ones |
| HostRecord.CheckEmbedded | plugins/modules/host_record.py:132-143 | the inner loop equals its specification |
| HostRecord.AddressesItem | plugins/modules/host_record.py:135-140 | the addresses item is the same exactly when the record embeds a list of addresses each of which was requested |
| HostRecord.CompareData | plugins/modules/host_record.py:132-143 | the payload is built before comparing; a failure to build it ends the comparison, and otherwise only a raising item does |
| HostRecord.Exec | plugins/modules/host_record.py:27-42 | only `present` writes the built body; a PUT targets `/resourceRecords/{id}` of the found record; a POST goes to `/zones/{zone}/resourceRecords` only when nothing was found; the delete path is fixed |
| HostRecord.Idempotent | plugins/modules/host_record.py:27-42 | a found record is left alone exactly when name, type, reverse flag match and all stored addresses were requested |
| HostRecord.PresentFound | plugins/modules/host_record.py:31-34 | a found record is put to `/resourceRecords/{id}` exactly when the comparison differs |
| HostRecord.PresentMissing | plugins/modules/host_record.py:35-36 | a missing record is posted under the looked-up zone |
| HostRecord.NewAddressUnnoticed | plugins/modules/host_record.py:132-143 | a requested address that is not stored causes no update |
| HostRecord.AbsentPathIgnoresRecord | plugins/modules/host_record.py:93-98 | `absent` deletes the path formed from the built-in `id` |
| Network.NetworkQuery | plugins/modules/network.py:56-67 | the network is looked up with its default zones embedded |
| Network.BlockQuery | plugins/modules/network.py:69-81 | the parent lookup pages 100 blocks ordered by range |
| Network.BlockFilter | plugins/modules/network.py:70-72 | the parent lookup's filter quotes the configuration, `range:ge` the range and `range:contains` its network address |
| Network.ZoneEntry | plugins/modules/network.py:140-146 | a default zone is referenced by type, looked-up id and name |
| Network.ZoneEntries | plugins/modules/network.py:140-146 | one entry per zone, in order |
| Network.ZoneStopPropagates | plugins/modules/network.py:140-146 | the first failing lookup ends the loop |
| Network.BuildDefaultZones | plugins/modules/network.py:140-146 | the zone loop equals its specification |
| Network.UdfItems | plugins/modules/network.py:147-148 | user-defined fields are sent only when given and not empty |
| Network.Payload | plugins/modules/network.py:122-150 | key order; type by IP version; gateway and zone keys only for IPv4; empty name and gateway become None |
| Network.BuildData | plugins/modules/network.py:122-150 | a bad range raises ValueError; IPv4 with zones looks them up |
| Network.RequestHeaders | plugins/modules/network.py:133-135 | the no-gateway header is added exactly for IPv4 without a gateway |
| Network.GatewayHeaderMatchesBody | plugins/modules/network.py:133-137 | the header is sent exactly when the body has a null gateway |
| Network.ZoneIds | plugins/modules/network.py:158-159 | the ids of the zone entries, raising at an entry that is not a dict |
| Network.Contains | plugins/modules/network.py:155 | Python's `in` on the `_embedded` value: undefined (TypeError) on null, booleans and numbers, key membership on an object |
| Network.EmbeddedOnlyKeyRaises | plugins/modules/network.py:155-166 | a key found only under `_embedded` raises KeyError |
| Network.ZonesItem | plugins/modules/network.py:157-161 | the default zones are the same exactly when the embedded zones carry the built ids in order |
| Network.UdfRule | plugins/modules/network.py:162-165 | a user field is the same exactly when the record stores it with that value |
| Network.NetworkItem | plugins/modules/network.py:153-167 | a plain key the record has never raises and is the same exactly when stored as built; a key mentioned nowhere is skipped; a record without `_embedded` raises KeyError on a key it lacks |
| Network.CompareData | plugins/modules/network.py:152-168 | a failure to build the payload ends the comparison; a record stored as built shows no difference |
| Network.Exec | plugins/modules/network.py:32-54 | writes carry the built body and headers; a PUT or DELETE targets `/networks/{id}`; a POST goes under the last block of the lookup only when nothing was found; deletes carry no headers; a change needs a valid range of at least /64 |
| Network.ShortIpv6PrefixFails | plugins/modules/network.py:39-41 | an IPv6 range wider than /64 fails, whatever the state |
| Network.ScanStoredAsBuilt | plugins/modules/network.py:152-168 | the comparison loop finds no difference in a record holding the plain items, the zone ids in order and the user fields |
| Network.UnchangedWhenStored | plugins/modules/network.py:152-168 | a network holding the plain items, the zone ids in order and the user fields is left alone |
| Network.NoChangeMeansStored | plugins/modules/network.py:152-168 | a run that changes nothing saw every stored plain item equal to the built one, the default zone ids in the built order, and stored user fields holding the requested ones |
| Network.PlainStoredWhenScanSame | plugins/modules/network.py:166-167 | when no item differs, every plain item the record has is stored as built |
| Network.ZonesStoredWhenScanSame | plugins/modules/network.py:155-161 | when no item differs, default zones the record mentions carry the built ids in order |
| Network.UdfStoredWhenScanSame | plugins/modules/network.py:162-165 | when no item differs, stored user fields hold the requested ones |
| Network.ZoneOrderMatters | plugins/modules/network.py:157-161 | the same two zones stored in the other order are a difference |
| Network.PresentFound | plugins/modules/network.py:42-45 | a found network is put to `/networks/{id}` with the request headers exactly when the comparison differs |
| Network.AbsentDeletes | plugins/modules/network.py:49-50 | `absent` deletes `/networks/{id}` of whatever the lookup returned, without headers |
| Network.PresentMissingCreates | plugins/modules/network.py:42-48 | a missing network is posted under the last block of the lookup, with the lower-cased range |
| Network.AbsentDeletesUnfound | plugins/modules/network.py:49-50 | with nothing found, `absent` deletes `/networks/None` |
| DeploymentRole.ResourceQuery | plugins/modules/deployment_role.py:87-123 | the resource is looked up by range or absolute name |
| DeploymentRole.RolesQuery | plugins/modules/deployment_role.py:76-85 | roles are listed under the resource, 100 at a time, interfaces embedded |
| DeploymentRole.Roles | plugins/modules/deployment_role.py:82-85 | no roles when the count is 0, otherwise the whole page |
| DeploymentRole.BuildData | plugins/modules/deployment_role.py:152-162 | keys type, roleType and a one-element interfaces list |
| DeploymentRole.InterfaceListed | plugins/modules/deployment_role.py:171-173 | true exactly when some interface has the wanted id |
| DeploymentRole.RoleInterfaces | plugins/modules/deployment_role.py:171 | the embedded interfaces of a well-formed role are read without raising |
| DeploymentRole.RoleMatches | plugins/modules/deployment_role.py:169-173 | type, role type and interface all match |
| DeploymentRole.CompareRoles | plugins/modules/deployment_role.py:164-174 | True exactly when no role that is not inherited matches |
| DeploymentRole.FindRoleId | plugins/modules/deployment_role.py:67-74 | the id of the first matching role, inherited or not; None when none matches |
| DeploymentRole.MatchRole | plugins/modules/deployment_role.py:69-73 | the per-role test with its inner loop equals its specification |
| DeploymentRole.CompareData | plugins/modules/deployment_role.py:164-174 | the nested compare loop equals its specification |
| DeploymentRole.FindDeploymentRoleId | plugins/modules/deployment_role.py:67-74 | the nested search loop equals its specification |
| DeploymentRole.Exec | plugins/modules/deployment_role.py:28-53 | a change needs the resource; creation posts the built body under the resource; deletion carries no headers |
| DeploymentRole.MissingResourceFails | plugins/modules/deployment_role.py:36-37 | an unfound resource fails |
| DeploymentRole.PresentMissingCreates | plugins/modules/deployment_role.py:41-133 | with the resource found and no non-inherited role matching, `present` posts the built role to `/{collection}/{resource}/deploymentRoles`, or in check mode only reports the change |
| DeploymentRole.Idempotent | plugins/modules/deployment_role.py:41-43 | `present` changes nothing exactly when a role that is not inherited already matches |
| DeploymentRole.AbsentDeletesFirstMatch | plugins/modules/deployment_role.py:44-47 | `absent` deletes the first matching role |
| DeploymentRole.AbsentWithoutMatchFails | plugins/modules/deployment_role.py:44-49 | `absent` with no match fails |
| DeploymentRole.InheritedRoleSeenOnlyByFind | plugins/modules/deployment_role.py:67-74 | an inherited role does not stop a creation, yet it is what `absent` deletes |

## Left out

- **The HTTP client and the login.** The BlueCat client library and its
  login, request and logout calls are outside the model.
  - GETs are the `api` function.
  - Mutating requests are the `Call` of an outcome; their responses are
    not modelled.
  - The `result` text a module reports is not modelled.
- **Address and range parsing.** Python's `ipaddress.ip_network` and
  `ip_address` are given functions. They report the IP version and prefix
  length, or None where Python raises ValueError. Whether a range has host
  bits set is decided there.
- **JSON encoding.** Bodies are built as values. The `json.dumps` and
  `json.loads` round trip in `compare_data` is taken to be the identity on
  them.
- **Python equality and `str`.**
  - Python's `1 == True` equality across types is not modelled.
  - `str()` of a list or dict in a path renders as a placeholder.
- **Case folding.** `str.lower` is modelled for ASCII letters only.
- **The `MediaType.JSON` value** is taken to be `application/json`. The
  client library is not part of this model.
- **The facts modules** (`*_facts.py`) are not part of this model. They
  only forward a filtered GET.
- **Ansible's own argument checks.** `choices` and the `mutually_exclusive`
  lists of the tag and collection-tag modules are assumed to have passed.
  For example, a deployment role's `collection` is one of three values, so
  its unbound `collection_id` branch cannot occur. Only the group module
  passes its `required_if` list to Ansible (`group.py:21-27`). The
  access-right `required_together` list (`access_right.py:32-37`) and the
  address `required_if` list (`address.py:24-29`) are built but never
  passed on, so the model takes every combination of those inputs:
  - AccessRight.ResourceId looks up no resource without a configuration;
  - Address.MacValue sends no MAC address when none is given, whatever the
    state.
- **Check mode for server deployments.** Ansible skips a module without
  check-mode support, which `ServerDeployment.Exec` renders as no change.
- **Dead code.**
  - `tag.compare_data` is never called, and it reads an unbound name.
  - `deployment_role.update_deployment_role` is never called.
  - `user_defined_link.delete_udl` cannot be reached, since `absent` fails
    first.
- **Unusual container shapes.**
  - HostRecord.AddressesItem: a stored `_embedded.addresses` that is not a
    list is modelled as TypeError, although Python would iterate a string
    or a dict.
  - Network.ZonesItem: a stored `_embedded.defaultZones` that is not a
    list is modelled as TypeError.
  - DeploymentRole.RoleInterfaces: a stored `_embedded.interfaces` that is
    not a list is modelled as TypeError.
- **Well-formedness assumptions.**
  - NoChangeMeansStored (in Network) is the converse of
    Network.UnchangedWhenStored. It speaks only of keys the record or its
    `_embedded` part mentions, because the comparison skips all other
    keys. For those keys it gives the plain items, the default zone ids in
    order and the user fields.
  - The deployment-role lemmas assume roles that can be read without
    raising (`WellFormed`).
- **Headers on GET requests** are not modelled; only the headers of
  mutating requests are.
