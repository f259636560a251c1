# External Control program node: parameter store and master selection

This project models the program-node contribution of the External Control
URCap (`ExternalControlProgramNodeContribution`) in Dafny. It covers the part
with real state: the node's persisted parameters in the URCap `DataModel`,
and the undo transactions that every change goes through.

- `getParam` reads a parameter and falls back to the caller's default.
- `setParam` writes a parameter. An empty value means "reset to default",
  and the default is then written explicitly.
- `setAdvancedParam` shows or hides the advanced-parameters panel. It also
  stores the flag, in a transaction of its own.
- The two keyboard `onOk` callbacks store the max-lost-packages count and
  the servoj gain. Each also puts the raw input into its text field.
- `onMasterSelection` decodes a selection into a `MasterPair` (name, IP,
  port). It does nothing when the IP and port equal the stored ones.
  Otherwise it writes `MASTER_NAME`, `MASTER` and `PORT` in one transaction.
- `openView` shows the stored IP and port in the info label.

Files:

- `urcap_data.dfy`, module `UrcapData`: the store (`map<string, Value>`).
  A transaction is an explicit list of key writes. `Apply` runs those writes
  in order. Lemmas say which entries a transaction sets and which it leaves
  alone.
- `program_node_spec.dfy`, module `ProgramNodeSpec`: the key and default
  constants, and `MasterPair`. `NodeState` holds the store, the undo log and
  the view's display state. There is one pure step function per operation,
  plus the lemmas about them.
- `program_node.dfy`, module `ProgramNode`: the class
  `ExternalControlProgramNodeContribution`. It has fields `model`, `undoLog`
  and `view`. Each method updates them in place as the Java method does. Each
  state-changing method's `ensures` ties the new state to the old one through
  the matching step of `ProgramNodeSpec`; `UpdateAdvancedParam` states its
  model, undo log and view separately, and `CloseView` changes nothing.

`MasterPair.fromString` is a `const` function field of the class, of type
`string -> MasterPair`. It is given to the constructor. Nothing is assumed
about its format, so no property depends on how it decodes.

The key names and default values are the source's constants
(`src/main/java/com/fzi/externalcontrol/impl/ExternalControlProgramNodeContribution.java:41-60`).
They are the `const` declarations at the top of `ProgramNodeSpec`.

## Model

| member | source | states |
|---|---|---|
| `UrcapData.Apply` | src/main/java/com/fzi/externalcontrol/impl/ExternalControlProgramNodeContribution.java:186-193 | running a transaction's `model.set` calls in order leaves exactly the previously present keys plus the written keys in the store |
| `UrcapData.ApplyUnwritten` | src/main/java/com/fzi/externalcontrol/impl/ExternalControlProgramNodeContribution.java:186-193 | a key no write of the transaction touches keeps its entry, or stays absent |
| `UrcapData.ApplyLastWrite` | src/main/java/com/fzi/externalcontrol/impl/ExternalControlProgramNodeContribution.java:189-191 | after a transaction, a key holds the value of the last write to it |
| `UrcapData.ApplyFrame` | src/main/java/com/fzi/externalcontrol/impl/ExternalControlProgramNodeContribution.java:186-193 | a transaction changes no entry outside the keys it writes |
| `ProgramNodeSpec.GetParam` | src/main/java/com/fzi/externalcontrol/impl/ExternalControlProgramNodeContribution.java:113-115 | the read yields the caller's default when the key is absent, and the stored string when one is present; as a function it cannot change the store |
| `ProgramNodeSpec.GetAdvancedParam` | src/main/java/com/fzi/externalcontrol/impl/ExternalControlProgramNodeContribution.java:121-123 | the flag reads true exactly when `true` is stored under `showadvancedparam`, so absence reads as the default `false` |
| `ProgramNodeSpec.IsDefined` | src/main/java/com/fzi/externalcontrol/impl/ExternalControlProgramNodeContribution.java:85-88 | the node is always defined |
| `ProgramNodeSpec.UpdateAdvancedParam` | src/main/java/com/fzi/externalcontrol/impl/ExternalControlProgramNodeContribution.java:138-144 | both branches leave the panel's visibility equal to `enable` and change nothing else in the view |
| `ProgramNodeSpec.GetMasterIP` | src/main/java/com/fzi/externalcontrol/impl/ExternalControlProgramNodeContribution.java:196-198 | the stored master address is read as a string with default `""`: absent reads as `""`, a stored string reads as itself |
| `ProgramNodeSpec.GetMasterPort` | src/main/java/com/fzi/externalcontrol/impl/ExternalControlProgramNodeContribution.java:200-202 | the stored master port is read as a string with default `""`: absent reads as `""`, a stored string reads as itself |
| `ProgramNodeSpec.RecordChanges` | src/main/java/com/fzi/externalcontrol/impl/ExternalControlProgramNodeContribution.java:101-110 | recording a unit of work appends exactly it to the undo log, leaves the view alone, and changes no key the unit does not write |
| `ProgramNodeSpec.ResetToDefaultValue` | src/main/java/com/fzi/externalcontrol/impl/ExternalControlProgramNodeContribution.java:117-119 | the reset writes only `key`, and only the default value |
| `ProgramNodeSpec.SetParamChanges` | src/main/java/com/fzi/externalcontrol/impl/ExternalControlProgramNodeContribution.java:103-109 | the unit of work of `setParam` writes only `key`, with the default when the value is empty and the value otherwise |
| `ProgramNodeSpec.SetParam` | src/main/java/com/fzi/externalcontrol/impl/ExternalControlProgramNodeContribution.java:100-111 | `setParam` leaves `key` present, changes no other key, leaves the view alone and adds one undo entry |
| `ProgramNodeSpec.SetAdvancedParam` | src/main/java/com/fzi/externalcontrol/impl/ExternalControlProgramNodeContribution.java:125-136 | `setAdvancedParam(show)` makes the panel's visibility `show`, leaves the flag's key present and adds one undo entry |
| `ProgramNodeSpec.MaxLostPackagesOnOk` | src/main/java/com/fzi/externalcontrol/impl/ExternalControlProgramNodeContribution.java:152-160 | the callback puts the raw input in the text field, leaves `maxlostpackages` present and adds one undo entry |
| `ProgramNodeSpec.GainServojOnOk` | src/main/java/com/fzi/externalcontrol/impl/ExternalControlProgramNodeContribution.java:168-176 | the callback puts the raw input in the text field, leaves `gain_servo_j` present and adds one undo entry |
| `ProgramNodeSpec.MasterChanges` | src/main/java/com/fzi/externalcontrol/impl/ExternalControlProgramNodeContribution.java:186-193 | the unit of work of `onMasterSelection` writes exactly the keys `MASTER_NAME`, `MASTER` and `PORT` |
| `ProgramNodeSpec.OnMasterSelection` | src/main/java/com/fzi/externalcontrol/impl/ExternalControlProgramNodeContribution.java:178-194 | a selection never touches the view or any key besides `MASTER_NAME`, `MASTER`, `PORT`, and records either nothing or exactly the three-key transaction |
| `ProgramNodeSpec.OpenView` | src/main/java/com/fzi/externalcontrol/impl/ExternalControlProgramNodeContribution.java:72-75 | opening the view leaves the store and the undo log unchanged, shows the stored IP and port in the info label, and changes nothing else in the view |
| `ProgramNodeSpec.SetParamStoresValue` | src/main/java/com/fzi/externalcontrol/impl/ExternalControlProgramNodeContribution.java:100-115 | after `setParam(k, v, d)` with non-empty `v`, `k` holds `v` and `getParam(k, d')` yields `v` for every `d'` |
| `ProgramNodeSpec.SetParamResetsToDefault` | src/main/java/com/fzi/externalcontrol/impl/ExternalControlProgramNodeContribution.java:104-105 | after `setParam(k, "", d)`, `k` is present and holds `d`, so `getParam(k, d')` yields `d` for every `d'` |
| `ProgramNodeSpec.SetParamFrame` | src/main/java/com/fzi/externalcontrol/impl/ExternalControlProgramNodeContribution.java:100-111 | `setParam` changes no other key and not the view, and appends exactly one transaction to the undo log |
| `ProgramNodeSpec.SetAdvancedParamEffect` | src/main/java/com/fzi/externalcontrol/impl/ExternalControlProgramNodeContribution.java:125-144 | `setAdvancedParam(show)` sets the panel's visibility to `show`, stores `show` explicitly under `showadvancedparam` (so it reads back as `show`), changes no other key, and appends exactly the one-write transaction |
| `ProgramNodeSpec.MaxLostPackagesOnOkEffect` | src/main/java/com/fzi/externalcontrol/impl/ExternalControlProgramNodeContribution.java:152-160 | the callback stores the input under `maxlostpackages` explicitly, or `"1000"` for empty input; its text field shows the raw input; no other key changes; exactly the `setParam` transaction is appended |
| `ProgramNodeSpec.GainServojOnOkEffect` | src/main/java/com/fzi/externalcontrol/impl/ExternalControlProgramNodeContribution.java:168-176 | the callback stores the input under `gain_servo_j` explicitly, or `"0"` for empty input; its text field shows the raw input; no other key changes; exactly the `setParam` transaction is appended |
| `ProgramNodeSpec.OnMasterSelectionChangesIff` | src/main/java/com/fzi/externalcontrol/impl/ExternalControlProgramNodeContribution.java:178-202 | a selection leaves the state identical exactly when its IP and port equal the stored ones (defaults `""`); otherwise it appends exactly the three-key transaction |
| `ProgramNodeSpec.OnMasterSelectionWritesAll` | src/main/java/com/fzi/externalcontrol/impl/ExternalControlProgramNodeContribution.java:186-193 | a selection with a new IP or port stores its name, IP and port under `MASTER_NAME`, `MASTER`, `PORT` in one transaction; no other key and not the view changes |
| `ProgramNodeSpec.OnMasterSelectionStoresEndpoint` | src/main/java/com/fzi/externalcontrol/impl/ExternalControlProgramNodeContribution.java:178-202 | after any selection, `getMasterIP` and `getMasterPort` yield the selection's IP and port |
| `ProgramNodeSpec.OnMasterSelectionTwice` | src/main/java/com/fzi/externalcontrol/impl/ExternalControlProgramNodeContribution.java:181-193 | selecting the same entry twice in a row records at most one transaction in total; the second call is a no-op |
| `ProgramNodeSpec.OnMasterSelectionIgnoresName` | src/main/java/com/fzi/externalcontrol/impl/ExternalControlProgramNodeContribution.java:181-184 | a selection that differs from the stored master only in its name is dropped: the state is unchanged, the `MASTER_NAME` entry stays as it was, and the stored name stays different from the selection's |
| `ProgramNodeSpec.OpenViewShowsSelection` | src/main/java/com/fzi/externalcontrol/impl/ExternalControlProgramNodeContribution.java:73-75 | opening the view after a selection shows that selection's IP and port in the info label |
| `ProgramNode.ExternalControlProgramNodeContribution.constructor` | src/main/java/com/fzi/externalcontrol/impl/ExternalControlProgramNodeContribution.java:62-70 | the node starts on the given data model and view, with no transactions recorded |
| `ProgramNode.ExternalControlProgramNodeContribution.RecordChanges` | src/main/java/com/fzi/externalcontrol/impl/ExternalControlProgramNodeContribution.java:101-110 | the unit of work's writes are applied to the model and pushed as one undo entry |
| `ProgramNode.ExternalControlProgramNodeContribution.OpenView` | src/main/java/com/fzi/externalcontrol/impl/ExternalControlProgramNodeContribution.java:72-75 | the info label receives the stored IP and port; model and undo log are unchanged |
| `ProgramNode.ExternalControlProgramNodeContribution.CloseView` | src/main/java/com/fzi/externalcontrol/impl/ExternalControlProgramNodeContribution.java:77-78 | closing the view changes nothing |
| `ProgramNode.ExternalControlProgramNodeContribution.SetParam` | src/main/java/com/fzi/externalcontrol/impl/ExternalControlProgramNodeContribution.java:100-119 | the in-place update performs the `setParam` step, with reset-on-empty and one transaction |
| `ProgramNode.ExternalControlProgramNodeContribution.UpdateAdvancedParam` | src/main/java/com/fzi/externalcontrol/impl/ExternalControlProgramNodeContribution.java:138-144 | only the view's panel visibility changes, and it becomes `enable` |
| `ProgramNode.ExternalControlProgramNodeContribution.SetAdvancedParam` | src/main/java/com/fzi/externalcontrol/impl/ExternalControlProgramNodeContribution.java:125-136 | the view is updated first, outside any transaction; then the flag is persisted in a transaction of its own |
| `ProgramNode.ExternalControlProgramNodeContribution.MaxLostPackagesOnOk` | src/main/java/com/fzi/externalcontrol/impl/ExternalControlProgramNodeContribution.java:152-160 | performs the max-lost-packages callback step |
| `ProgramNode.ExternalControlProgramNodeContribution.GainServojOnOk` | src/main/java/com/fzi/externalcontrol/impl/ExternalControlProgramNodeContribution.java:168-176 | performs the servoj-gain callback step |
| `ProgramNode.ExternalControlProgramNodeContribution.OnMasterSelection` | src/main/java/com/fzi/externalcontrol/impl/ExternalControlProgramNodeContribution.java:178-202 | decodes the selection, returns early when the stored IP and port match, otherwise records the three-key transaction |

## Left out

- `OnMasterSelection`: `onMasterSelection` has no try/catch (`src/main/java/com/fzi/externalcontrol/impl/ExternalControlProgramNodeContribution.java:178-194`). So a failure inside `MasterPair.fromString` reaches the caller. The decoder is modelled as a total function, and that failure is not modelled.
- `SetAdvancedParam`: the model assumes a view whose advanced-parameters panel exists. In the shipped view that panel is created only inside commented-out code (`src/main/java/com/fzi/externalcontrol/impl/ExternalControlProgramNodeView.java:104-122`), so `showAdvancedParameters` (`ExternalControlProgramNodeView.java:200-202`) would dereference null. As written, `setAdvancedParam` would then throw before its transaction, storing no flag and recording nothing. The checkbox listener that calls it is also registered only in that commented-out code, so the path is not reachable in this revision. The model and `SetAdvancedParamEffect` describe the intended behaviour with a working panel.
- `MasterPair.fromString` and `MasterPair.toString`: the `MasterPair` class is not part of this model. The decoder is an abstract total function, so no parse/format round trip is stated.
- `getTitle`, `generateScript` and `getInstallation`: they only call the installation node and the `ScriptWriter`, which are not part of this model.
- `getInputForMaxLostPackages` and `getInputForGainServoj`: they create keyboard-input widgets. Each one only seeds its widget with `getParam`, which is modelled.
- `ExternalControlProgramNodeView`: Swing presentation. Only the state the contribution writes into it is kept: panel visibility, two text fields, and the info label's IP and port.
- The `UndoRedoManager`'s undo and redo replay is external. Only its "one recorded entry per `recordChanges`" contract is modelled, as an append to `undoLog`.
- `System.out` logging, and the commented-out rosbridge/JSON code.
- Java `null` strings are not modelled. Strings are `seq<char>`, and `equals` is sequence equality.
- `GetParam`: what `DataModel.get` returns when the key holds a value of the other type is the external store's behaviour. Here it is taken to be the default.
