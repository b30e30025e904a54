# memthol: label sharing and filter specifications

This project models two small parts of memthol, a live memory-profiling
dashboard, and proves properties of them in Dafny.

- **Label sharing** (`labels.dfy`, module `Labels`). The profiler interns every
  list of allocation labels in one shared store. `add` registers a list and
  returns a compact `Uid`. `get` turns the `Uid` back into the list. The store
  itself comes from a macro whose body is not part of this model. It is modelled
  here as an explicit arena, the value `Mem(elems, uids)`. `elems[i]` is the list
  whose UID is `i`, and `uids` maps each stored list to its index. The pure
  functions `GetUid` and `GetElm` are the store's `get_uid` and `get_elm`. The
  class `LabelStore` holds the same two fields. Its `Add` and `Get` methods are
  proved against those functions. `Valid` is the arena invariant: every list is
  stored once, at the index it is registered under.
- **Filter specifications** (`filter_spec.dfy`, module `FilterSpec`). A
  `FilterSpec` names one line of the charts. Its identity is a `LineUid`: a user
  filter `Filter(uid)`, `CatchAll` or `Everything`. It also has a display name, an
  RGB colour and an `edited` flag. The class `Spec` has the three constructors
  and the four setters. The accessors `uid()`, `edited()`, `name()` and `color()`
  are reads of the fields of the same names. `FilterUid::fresh` is modelled by
  the counter class `FilterUidGen`, whose ghost set `issued` records every UID
  handed out. The default name `filter <uid>` writes the UID in decimal
  (`ShowNat`). `ParseNat` reads it back, which proves that distinct UIDs get
  distinct names.

## Model

| member | source | states |
|---|---|---|
| Labels.Empty | libs/data/src/labels.rs:3-6 | the store starts with an arena that satisfies the invariant and has issued no UID |
| Labels.GetUid | libs/data/src/labels.rs:14-17 | the returned UID resolves to the list in the new store; the invariant is kept; the arena only grows; a list already stored leaves the store unchanged; a new list is appended and gets the next index |
| Labels.GetElm | libs/data/src/labels.rs:21-24 | a UID the store issued resolves to the list stored at its index; any other UID gives `UnknownUid` |
| Labels.AddAll | libs/data/src/labels.rs:14-18 | after any run of `add` calls, the invariant holds, the arena has only grown, and every UID handed out resolves to the list it was returned for |
| Labels.AddThenGet | libs/data/src/labels.rs:13-24 | round trip: `get` of the UID returned by `add(l)` gives back `l` |
| Labels.SharedIffEqual | libs/data/src/labels.rs:1-18 | label sharing: two lists registered one after the other get the same UID if and only if they are equal |
| Labels.GetStable | libs/data/src/labels.rs:14-24 | a later `add` never changes what an already issued UID resolves to |
| Labels.AddAllShares | libs/data/src/labels.rs:1-24 | over any run of `add` calls, two returned UIDs are equal if and only if their lists are equal, and every UID issued before the run still resolves to the same list |
| Labels.FirstAppearances | libs/data/src/labels.rs:1 | reference for label sharing without any index: the lists already stored come first, and a list is in the result exactly when it was stored or registered |
| Labels.AddAllArena | libs/data/src/labels.rs:1-18 | after any run of `add` calls the arena is exactly the lists stored before, then each distinct registered list once, in order of first registration |
| Labels.LabelStore.constructor | libs/data/src/labels.rs:3-6 | a new store holds the empty arena |
| Labels.LabelStore.Add | libs/data/src/labels.rs:14-18 | the new store and the returned UID are exactly `GetUid` of the old store; the UID resolves to `labels`; the invariant is kept |
| Labels.LabelStore.Get | libs/data/src/labels.rs:21-24 | returns the stored list for an issued UID and `UnknownUid` otherwise; it has no `modifies` clause, so the store is left unchanged |
| Labels.AddTwiceThenGet | libs/data/src/labels.rs:14-24 | on the class: two `add` calls return equal UIDs exactly when the lists are equal, and the first UID still resolves to the first list after the second `add` |
| FilterSpec.ShowNat | libs/charts/src/filter/spec.rs:34 | the decimal rendering of a UID is a non-empty string of digits with no leading zero |
| FilterSpec.ParseShowNat | libs/charts/src/filter/spec.rs:34 | reading the decimal rendering back gives the number it was made from |
| FilterSpec.ShowNatInjective | libs/charts/src/filter/spec.rs:34 | two numbers render the same if and only if they are equal |
| FilterSpec.DefaultName | libs/charts/src/filter/spec.rs:34 | the default name is `filter ` followed by the decimal rendering of the UID |
| FilterSpec.DefaultNameDistinct | libs/charts/src/filter/spec.rs:32-61 | two user filters get the same default name if and only if their UIDs are equal; no default name is `catch all` or `everything` |
| FilterSpec.FilterUidGen.constructor | libs/charts/src/filter/spec.rs:33 | a new generator has issued nothing and starts counting at 0 |
| FilterSpec.FilterUidGen.Fresh | libs/charts/src/filter/spec.rs:33 | the returned UID was never issued before; it is the counter's value; the counter goes up by one and the UID joins the issued set |
| FilterSpec.Spec.New | libs/charts/src/filter/spec.rs:32-41 | the UID is `Filter(u)` for a freshly drawn `u`, never `CatchAll` or `Everything`; the name is `filter <u>`; the colour is the argument; `edited` is false |
| FilterSpec.Spec.NewCatchAll | libs/charts/src/filter/spec.rs:44-51 | UID `CatchAll`, name `catch all`, colour (0x01, 0x93, 0xff), `edited` false |
| FilterSpec.Spec.NewEverything | libs/charts/src/filter/spec.rs:54-61 | UID `Everything`, name `everything`, colour (0xff, 0x66, 0x00), `edited` false |
| FilterSpec.Spec.SetEdited | libs/charts/src/filter/spec.rs:72-75 | `edited` is true afterwards, whatever it was, so a second call changes nothing; UID, name and colour are unchanged |
| FilterSpec.Spec.UnsetEdited | libs/charts/src/filter/spec.rs:76-79 | `edited` is false afterwards, whatever it was, so a second call changes nothing; UID, name and colour are unchanged |
| FilterSpec.Spec.SetName | libs/charts/src/filter/spec.rs:85-88 | the name is the argument; UID, colour and `edited` are unchanged |
| FilterSpec.Spec.SetColor | libs/charts/src/filter/spec.rs:94-97 | the colour is the argument; UID, name and `edited` are unchanged |
| FilterSpec.NewTwice | libs/charts/src/filter/spec.rs:32-41 | two successive `new` calls give user filters with distinct UIDs and distinct names |

No setter's `modifies` clause includes the `uid` field, so the UID stays as the
constructor set it. The source's `uid()` accessor (libs/charts/src/filter/spec.rs:63-66)
only reads it.

## Left out

- The `RwLock` guards (`mem::write`, `mem::read`) and the `Arc` around the list `get` returns. The model is a single-threaded store, and `get` returns the list as a value.
- Hashing, reference counting and reclamation inside the store macro. Its body is not part of this model, and stored lists are kept for the whole session.
- Labels.LabelStore.Get and Labels.GetElm: the source's `get` has no error path. Only `add` creates a `Uid`, so every `Uid` is one the store issued. The model's `Uid` is a plain index, so a UID the store never issued is answered with `UnknownUid`. `AddThenGet` and `GetStable` show that a UID from `add` never takes that path.
- `FilterUid::fresh`: its body and the thread-safe global counter behind it are not part of this model. It is modelled as a sequential counter object that is passed to `new`.
- How a `FilterUid` is displayed is not shown either. The model assumes it is written as its decimal number.
- The doc comments on `FilterSpec` still describe the UID as optional. The model follows the code, where the UID is the three-way `LineUid`.
- The `Serialize`/`Deserialize`/`Clone`/`Debug` derives on `FilterSpec`. They are generated code.
- The generic `set_name<S: Into<String>>` is modelled with a `string` argument, the result of the conversion.
