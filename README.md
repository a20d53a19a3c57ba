# pyxymon in Dafny

A model of pyxymon, a small Python helper for writing Xymon extension
modules. The model also covers the decision logic of its example check,
which monitors a Pacemaker cluster node.

- `wrappers.dfy` (module `Wrappers`): the `Option`, `Result` and `Outcome`
  datatypes that stand for Python's `None` and its exceptions.
- `text.dfy` (module `Text`): the Python built-ins the code relies on.
  - `int()` and `str()` on decimal integers.
  - `str.split(c)` and `sep.join(parts)`.
  - Left-justified padding in `str.format`.
  - The first word of `str.split()`.
  - `sorted()` on strings: sorted and a permutation, with one sorted
    result per multiset.
- `xymon.dfy` (module `Xymon`): `pyxymon.py`.
  - `XymonMessage` is a class over its four fields: body, footer, colour
    and lifetime.
    - The colour setter only ratchets the colour up through
      `&green` < `&yellow` < `&red`.
    - `title` and `section` append fragments to the body; `footer`
      replaces the footer.
    - `_render` builds the `status` line.
  - `Decode` reads a `status` line back into its fields.
    `EncodeDecode` proves that rendering loses nothing except a lifetime
    of 0, which renders like no lifetime at all, provided the target
    (`MACHINE.test`) holds no blank or line break and the date no line
    break. `DecodeEncode` proves the
    converse: every accepted line is the rendering of the fields read from it.
  - `XymonClient` owns a message.
  - The environment getters read an explicit `Env` map.
- `check_pacemaker.dfy` (module `CheckPacemaker`): the Pacemaker check.
  - Everything pcs reports is one `ClusterState` input.
  - The resource-group check and the node filter.
  - `check_cluster_status` is a straight-line method over a `XymonMessage`. Its final body
    is proved to be the HTML of a fixed list of blocks. Its final colour is
    proved green exactly when the node is online with its groups in place, all
    local resources are started and, with `-d`, all three daemons run; in
    every other case it is red.
  - The option loop of the entry point is a `while` loop, proved equal to a
    recursive scan. A declarative lemma states what it yields.

Two behaviours of the code are kept as written:
- A negative lifetime renders as `+-N`.
- A missing `online` attribute of the local node reads as online, because
  the fallback string `"Unknown"` is truthy.

## Model

| member | source | states |
|---|---|---|
| Xymon.XymonMessage.constructor | pyxymon.py:36-40 | A fresh message has an empty body and no footer. It is green, has no lifetime, and its colour is legal. |
| Xymon.Rank | pyxymon.py:84-85 | The rank of a legal colour is its index in the list of legal colours. |
| Xymon.Ratchet | pyxymon.py:82-87 | One setter call never yields an illegal colour. An illegal value leaves the colour unchanged. A legal value yields the higher-ranked of the current colour and the value. |
| Xymon.XymonMessage.SetColor | pyxymon.py:82-87 | An illegal value fails with IllegalColor and leaves the colour as it was. A legal value moves the colour to `Ratchet(old, value)`. The other fields do not change. |
| Xymon.RaiseAllIsMaximum | pyxymon.py:84-87 | After any sequence of sets, the colour is the start colour or one of the values. It ranks at least as high as the start and as every legal value passed. |
| Xymon.RaiseAllIgnoresOrder | pyxymon.py:84-87 | Only the set of values passed decides the final colour, not their order or repetition. |
| Xymon.RaiseAllConcat | pyxymon.py:84-87 | Setting one sequence and then another equals setting their concatenation. |
| Xymon.RaiseAllCritical | pyxymon.py:84-87 | Once `&red` has been set, the colour stays `&red`. |
| Xymon.RaiseAllOk | pyxymon.py:84-87 | Starting green and setting only green leaves the colour green. |
| Xymon.LifetimeText | pyxymon.py:89-92 | The getter is empty exactly when the lifetime is unset or 0. Otherwise it is `+` followed by exactly `str(lifetime)`, which parses back to the lifetime. It holds no blank and no line break. |
| Xymon.XymonMessage.SetLifetime | pyxymon.py:94-100 | An integer literal becomes the lifetime. Anything else fails with NotANumber and keeps the previous lifetime. |
| Xymon.XymonMessage.Title | pyxymon.py:102-108 | Appends the title fragment after the existing body. Colour, footer and lifetime do not change. |
| Xymon.XymonMessage.Section | pyxymon.py:110-117 | Appends the section fragment after the existing body. Colour, footer and lifetime do not change. |
| Xymon.HtmlOfAppend | pyxymon.py:102-117 | Appending a block appends its fragment to the body. |
| Xymon.HtmlOfConcat | pyxymon.py:102-117 | The body of blocks followed by more blocks is the first body followed by the second. Earlier content is never altered. |
| Xymon.FragmentOpens | pyxymon.py:102-117 | A title fragment opens with `<br>` and a section fragment with `<h2>`. |
| Xymon.TitleFragmentInjective | pyxymon.py:102-117 | A title fragment equals no other fragment: not a section fragment, and not the fragment of a different title. |
| Xymon.XymonMessage.Footer | pyxymon.py:119-129 | Replaces any previous footer with the footer for this script and version. Body, colour and lifetime do not change. |
| Xymon.FooterFragment | pyxymon.py:126-129 | The footer is never empty: it opens with `<br><center>` and closes with `</center>`, so once set it is always rendered. |
| Xymon.XymonMessage.Html | pyxymon.py:145 | The rendered HTML is the body followed by the footer when one is set, and the body alone otherwise. |
| Xymon.ColorName | pyxymon.py:147 | The colour as written on the wire is the colour without its leading `&`. It holds no blank and no line break. |
| Xymon.DecodeLifetimeText | pyxymon.py:92 | Reading the lifetime text back gives the lifetime, with 0 read as unset. |
| Xymon.LifetimeTextOfDecode | pyxymon.py:92 | The reader accepts only lifetime text the getter writes: accepted text is exactly the getter's text for the value read, and that value is never 0. |
| Xymon.DecodeHeaderOf | pyxymon.py:147 | The four header fields (lifetime, target, colour, date) are read back from the header, given a target without blanks. |
| Xymon.HeaderOneLine | pyxymon.py:147 | The header holds no line break when neither the target nor the date does. |
| Xymon.HeaderOfDecode | pyxymon.py:147 | An accepted header has a legal colour and a non-zero lifetime, and is exactly the header its four fields render to. |
| Xymon.EncodeDecode | pyxymon.py:145-148 | For a legal colour, a target with no blank or line break and a date with no line break, decoding the rendered `status` line gives back every field, the body included, with a lifetime of 0 read as unset. |
| Xymon.DecodeEncode | pyxymon.py:147 | Every line the reader accepts has a legal colour and a non-zero lifetime, and is exactly the `status` line rendered from the fields read. With EncodeDecode the rendering and the reader are inverse to each other. |
| Xymon.XymonMessage.Render | pyxymon.py:131-148 | Fails with MachineNotSet when MACHINE is unset or empty. Fails with ColorCorrupted on an illegal colour, which cannot happen for a valid message. Otherwise it succeeds and decodes back to lifetime, `MACHINE.test`, colour, date, and the body followed by the footer when one is set. By DecodeEncode the line is then fixed by those fields. |
| Xymon.GetMachine | pyxymon.py:48-58 | Succeeds exactly when MACHINE is set and non-empty, with its value. Otherwise it fails with MachineNotSet. |
| Xymon.GetServerName | pyxymon.py:183-193 | Succeeds exactly when XYMSRV is set and non-empty, with its value. Otherwise it fails with ServerNotSet. |
| Xymon.GetServerPort | pyxymon.py:195-204 | 1984 when XYMONDPORT is absent. Otherwise the integer parse of its value, or InvalidPort when the value is not an integer. |
| Xymon.PortRoundTrip | pyxymon.py:203-204 | Any port written in decimal into XYMONDPORT is read back as that port. |
| Xymon.XymonClient.constructor | pyxymon.py:178-181 | The client keeps its test name and owns a fresh message in the initial state. |
| Xymon.XymonClient.Send | pyxymon.py:206-219 | Errors arrive in this order: server, port, render, and a render failure is passed on with the render's own error. On success the delivery goes to XYMSRV and the parsed port, and carries exactly the rendered message. |
| Text.Show | pyxymon.py:92 | `str(n)` is non-empty and all digits, except for a leading `-` exactly when n is negative. It has no leading zero except for `0` itself. Its decimal value is fixed through ParseShow and ParseIntDigit. |
| Text.ParseInt | pyxymon.py:98 | `int(s)` succeeds exactly on an optional sign followed by digits. The result is non-negative without a `-` and non-positive with one. Its value is fixed by ParseIntDigit and ParseIntForms. |
| Text.ParseShow | pyxymon.py:92-98 | `int(str(n)) == n` for every integer. |
| Text.ParseIntForms | pyxymon.py:94-100 | A leading `+` or a leading zero does not change the value `int()` reads, and a leading `-` negates it. |
| Text.ParseIntDigit | pyxymon.py:94-100 | The decimal value of a digit string: one digit reads as its own value, and one more digit on the right multiplies the value by ten and adds that digit. |
| Text.Split | example/check_pacemaker.py:342 | `str.split(c)` yields at least one part and no part holds `c`. Joining the parts with `c` gives the input back. |
| Text.SplitTwoParts | example/check_pacemaker.py:342 | The split yields exactly two parts exactly when the value holds exactly one `c`. |
| Text.SplitCount | example/check_pacemaker.py:342 | The split yields one more part than there are `c` in the value. |
| Text.SplitJoin | example/check_pacemaker.py:279-290 | Joining parts free of `c` with `c` and splitting on `c` gives the parts back. |
| Text.SplitThreeLines | example/check_pacemaker.py:305-307 | Three lines free of `c`, each ended by `c`, split into those lines and a final empty part. |
| Text.PadRight | example/check_pacemaker.py:280 | `{:<w}` keeps the text as a prefix and fills with blanks up to width w. It never truncates. |
| Text.FirstWord | example/check_pacemaker.py:289 | `s.split()[0]` fails exactly when the text is all blanks. Otherwise the word is non-empty and blank-free; by FirstWordIsFirst it is the first one. |
| Text.TakeWord | example/check_pacemaker.py:289 | The word is the longest blank-free prefix: it is a prefix, holds no blank, and is followed by a blank or the end of the text. |
| Text.FirstWordIsFirst | example/check_pacemaker.py:289 | The word read is the longest blank-free run starting at the first non-blank character of the text. |
| Text.FirstWordOf | example/check_pacemaker.py:289 | The first word of ` word rest` is `word` when `word` is non-empty and blank-free. |
| Text.Sort | example/check_pacemaker.py:269 | `sorted()` returns a sorted permutation of its input. |
| Text.SortedUnique | example/check_pacemaker.py:269 | Two sorted sequences with the same elements are equal. |
| Text.SortIgnoresOrder | example/check_pacemaker.py:269 | The sorted node list depends only on the multiset of node names. |
| CheckPacemaker.CheckResourceGroupsStatus | example/check_pacemaker.py:184-203 | True when no groups are required or the list is empty. Otherwise true exactly when every required group is a known group holding one of the node's resources. |
| CheckPacemaker.CheckResourceGroupsMonotone | example/check_pacemaker.py:195-203 | More resources on the node, or more groups, never turn a match into a mismatch. |
| CheckPacemaker.CheckResourceGroupsIgnoresOrder | example/check_pacemaker.py:195-203 | Order and duplicates in the required list do not matter. |
| CheckPacemaker.LocalResources | example/check_pacemaker.py:218-221 | Keeps exactly the resource entries placed on the local node and drops all others. It never grows the list. |
| CheckPacemaker.LocalResourcesIdempotent | example/check_pacemaker.py:219-221 | Filtering twice equals filtering once. |
| CheckPacemaker.LocalResourcesConcat | example/check_pacemaker.py:219-221 | Filtering a concatenation concatenates the filtered parts, and one entry is kept exactly when it is on the node. So the filter keeps the entries in their original order. |
| CheckPacemaker.LocalResourcesUniqueIds | example/check_pacemaker.py:219-221 | Filtering a list with unique resource ids gives a list with unique ids. |
| CheckPacemaker.GetClusterInfos | example/check_pacemaker.py:206-240 | The node name falls back to "Unknown". The status is "online" unless the node is reported offline. The node resources are the local-node filter of all resources. The group match is the group check of that node's configured groups, or None when the node has none. The cluster name is pcs's, and the running count is `str()` of the reported count or "Unknown". |
| CheckPacemaker.NodeStatus | example/check_pacemaker.py:253-257 | The shown status is "online" exactly when the node is online and its groups match. With a match it is the node status. Without one it is the node status followed by ` (resources have switched)`. |
| CheckPacemaker.NodeColor | example/check_pacemaker.py:253-262 | Green exactly when the node is online and its groups match the configuration. Otherwise red. |
| CheckPacemaker.ResourceColor | example/check_pacemaker.py:276-278 | Green exactly when the resource role is Started. Otherwise red. |
| CheckPacemaker.ResourceLine | example/check_pacemaker.py:279-289 | The first word of a resource line is that resource's colour. The line holds no line break when neither the id nor the agent does. |
| CheckPacemaker.ResourceLines | example/check_pacemaker.py:279-282 | One formatted line per local resource, in order. |
| CheckPacemaker.ResourcesBodyLines | example/check_pacemaker.py:273-290 | When the node has at least one resource and no id or agent holds a line break: the resources body starts with the running-count summary, and the rest splits on line breaks back into the resource lines, one per local resource in order. |
| CheckPacemaker.LinesAllOkIffStarted | example/check_pacemaker.py:276-292 | The textual test on the resource lines passes exactly when every local resource is started. |
| CheckPacemaker.ResourceUpdatesIffStarted | example/check_pacemaker.py:287-293 | The resources step sets red exactly when some local resource is not started. With no local resources it sets nothing. |
| CheckPacemaker.ServiceLine | example/check_pacemaker.py:298-304 | The first word of a service line is green when the service runs and red otherwise. It holds no line break when the service name does not. |
| CheckPacemaker.DaemonsBodyLines | example/check_pacemaker.py:297-307 | The daemon section splits into one line per cluster service, in the order corosync, pacemaker, pcsd, then an empty tail. Each line leads with green exactly when its service runs. |
| CheckPacemaker.ReportColor | example/check_pacemaker.py:262-310 | The colour after all setter calls is green exactly when node, groups, resources and, with `-d`, daemons are all fine. Otherwise it is red, never yellow. |
| CheckPacemaker.ReportHtml | example/check_pacemaker.py:258-308 | The report body is the title, node status, nodes and resources fragments, then the daemons fragment only when daemons are checked. |
| CheckPacemaker.ReportTitle | example/check_pacemaker.py:258-259 | Appends the cluster title. |
| CheckPacemaker.ReportNodeStatus | example/check_pacemaker.py:261-266 | Appends the node status section and sets the node colour. |
| CheckPacemaker.ReportNodes | example/check_pacemaker.py:268-270 | Appends the sorted, comma-separated node list. |
| CheckPacemaker.ReportResources | example/check_pacemaker.py:272-293 | Appends the resources section, then sets red unless every resource line reads green. |
| CheckPacemaker.ReportDaemons | example/check_pacemaker.py:295-310 | Without `-d`, the body and colour are unchanged. With it, appends the daemon section and sets red when a cluster daemon is down. |
| CheckPacemaker.ReportHead | example/check_pacemaker.py:258-270 | The steps from the title to the node list, in order. |
| CheckPacemaker.ReportTail | example/check_pacemaker.py:272-314 | The steps from the resources to the footer, in order. |
| CheckPacemaker.BuildReport | example/check_pacemaker.py:258-314 | On a fresh message, the body becomes the HTML of the report blocks. The colour is the closed form of ReportColor. The footer names the script and its version. |
| CheckPacemaker.CheckClusterStatus | example/check_pacemaker.py:243-316 | A fresh client with that test name carries the report built from the collected cluster information, with no lifetime. What is sent is that client's `Send`. |
| CheckPacemaker.HostGroup | example/check_pacemaker.py:342 | The two-name unpacking of `value.split(":")` succeeds exactly when the value holds one `:`. The names are then the text before and after it. |
| CheckPacemaker.FirstStop | example/check_pacemaker.py:335-347 | The index is at most the number of options. No option before it ends the loop, and the option at it, when there is one, does. |
| CheckPacemaker.AccumulateStep | example/check_pacemaker.py:343 | One more pair appends its group to that host's list, starting from an empty list. |
| CheckPacemaker.AccumulateGroups | example/check_pacemaker.py:341-343 | Each host maps to the groups given for it, in argument order. Only hosts given a group appear. |
| CheckPacemaker.AnyDaemonsSnoc | example/check_pacemaker.py:339-340 | Reading one more option leaves the daemons flag set if it was, and sets it exactly when that option is `-d`. |
| CheckPacemaker.StepOption | example/check_pacemaker.py:335-347 | One turn stops exactly on `-h`, a malformed `-r` value or an unknown option, with that option's outcome. Otherwise it records the `-t` value, sets the daemons flag on `-d`, and leaves the groups alone unless the option is `-r`. |
| CheckPacemaker.ScanStops | example/check_pacemaker.py:336-347 | `-h`, a malformed `-r` value or an unknown option ends a running loop with its own outcome. |
| CheckPacemaker.ScanGoes | example/check_pacemaker.py:339-345 | Any other option extends the last `-t` value, the daemons flag and the accumulated groups. |
| CheckPacemaker.ScanSpec | example/check_pacemaker.py:335-347 | The loop stops at the first stopping option with its outcome. Otherwise it holds the last `-t` value, whether some `-d` was given, and the accumulated `-r` groups. |
| CheckPacemaker.ScanStopped | example/check_pacemaker.py:336-338 | Options after the one that stops the loop are never read. |
| CheckPacemaker.ParseOptions | example/check_pacemaker.py:323-351 | The loop, with its early exits and the missing-test check, yields the outcome of the scan of all options. |
| CheckPacemaker.ParseOptionsSpec | example/check_pacemaker.py:335-351 | The entry point yields one of three results. A stopping option gives its own outcome. Without a non-empty `-t`, it prints usage with exit code 1. Otherwise it runs the check with the last `-t` value, every host's `-r` groups in argument order, and whether `-d` was given. |

## Left out

- The socket in `send` (pyxymon.py:215-219) is network I/O. `Send` returns
  the server, port and payload it would write. The source connects before
  it renders, so a render error leaves a connected socket unclosed; that is
  not modelled.
- The current date (`_get_date`, pyxymon.py:43-46) depends on the clock and
  locale. It is a string parameter.
- `os.environ` is an explicit `Env` map argument.
- Text.ParseInt: models `int()` on a string as an optional sign followed by
  ASCII digits. The surrounding whitespace, `_` separators and non-ASCII
  digits Python also accepts are not modelled, nor are non-string arguments
  to the lifetime setter.
- Text.FirstWord: blanks are the six characters space, `\t`, `\n`, `\r`,
  `\x0b` and `\x0c`. Python's `str.split()` also splits on `\x1c` to `\x1f`
  and on other Unicode whitespace. No result of the model depends on this:
  the first word read is always a colour token followed by a space.
- Xymon.XymonMessage.Render: the round-trip `ensures` is stated only when
  the machine and test names hold no blank or line break and the date no
  line break. Without that, the line is still produced but cannot be read
  back field by field.
- Xymon.XymonClient.constructor: Python's `XymonClient` inherits from
  `XymonMessage`; the model gives the client a message field instead. The
  operations are those of the message.
- `sock.send(xymon_string.encode("utf-8"))`: the UTF-8 encoding of the
  payload is not modelled; the payload is a string.
- The pcs and XML queries of the check are not modelled. Their results are
  the fields of a `ClusterState` input:
  - `get_cluster_name`, `cluster_nodes`, `cluster_local_node_status`;
  - `cluster_resources`, `cluster_resource_groups`;
  - `status.is_service_running`.
- The services are queried twice in the source, once for the section and
  once for the colour. The model reads both from one set of running
  services.
- CheckPacemaker.LinesAllOkIffStarted: the resource lines are re-read after
  being joined with line breaks. The model reads them per resource, which
  is the same only when no resource id or agent holds a line break.
- `usage`, `die`, the `getopt` call and the `os.geteuid` root check of the
  entry point are process and command-line plumbing. `ParseOptions` takes
  the (option, value) pairs that `getopt` returns. Printing the usage text
  and exiting become the `Usage`, `UnpackError` and `Unhandled` outcomes.
- `example/bb-pacemaker.py` is not part of this model. It is an older
  variant of the same check, written against a different client interface.
- CheckPacemaker.CheckClusterStatus: the script file name and version in
  the footer are the constants `check_pacemaker.py` and `3`.
- Several functions only compute: `Header`, `Encode`, `Fragment`, `HtmlOf`,
  `RaiseAll`, `Join`, `HoldsNodeResource`, `ResourcesBody`, `LinesAllOk`,
  `DaemonsBody`, the block builders, the update lists, `ReportBlocks`,
  `Accumulate`, `ScanOptions` and `AfterLoop`. Their
  properties are stated by the lemmas about them, which are listed in the
  table:
  - `Header` and `Encode`: EncodeDecode, DecodeEncode, DecodeHeaderOf and
    HeaderOfDecode.
  - `Fragment`: FragmentOpens and TitleFragmentInjective.
  - `Join`: Split and SplitJoin.
  - `ResourcesBody`: ResourcesBodyLines.
  - `DaemonsBody`: DaemonsBodyLines.
  - `Accumulate`: AccumulateGroups and AccumulateStep.
  - `ScanOptions` and `AfterLoop`: ScanSpec and ParseOptionsSpec.
  - `HtmlOf` (the accumulated `_message`): HtmlOfAppend and HtmlOfConcat.
  - `RaiseAll` (a run of colour setter calls): RaiseAllIsMaximum and the
    other RaiseAll lemmas.
  - `HoldsNodeResource` (the comprehension at example/check_pacemaker.py:195-200):
    CheckResourceGroupsStatus.
  - `LinesAllOk` (the `all(item.split()[0] == ...)` test at
    example/check_pacemaker.py:287-291): LinesAllOkIffStarted.
  - `TitleOf`, `NodeStatusBlock`, `NodesBlock`, `ResourcesBlock`,
    `DaemonsBlock` and `ReportBlocks` (the `title` and `section` calls and
    their order, example/check_pacemaker.py:258-308): ReportHtml and BuildReport.
  - `ResourceUpdates`, `DaemonUpdates` and `ColorUpdates` (the conditional
    colour setter calls, example/check_pacemaker.py:262-310):
    ResourceUpdatesIffStarted and ReportColor.
- CheckPacemaker.ResourcesBodyLines: the resource lines are re-read with
  `str.splitlines()`, which also breaks on line-boundary characters other
  than `\n`. The model splits on `\n` only. With no local resources the
  joined list is empty: `"".splitlines()` is `[]`, while splitting `""` on
  `\n` gives `[""]`. ResourcesBodyLines therefore requires at least one
  resource; the empty case is covered by ResourceUpdatesIffStarted, which
  sets no colour for it.
- Xymon.XymonMessage.Html: `not self._footer` also holds for an empty
  footer. The model treats an empty footer as unset; the footer method
  never sets an empty one (FooterFragment).
