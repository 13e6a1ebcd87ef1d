# making-routes, modelled in Dafny

making-routes is a desktop tool for setting up routes in an M3 system. The user loads an
Excel template (sheet TEMPLATE_V3). Its rows are kept in a record store: `ModelViewController`
holds one table view per record `_api` name. A set of plugins then reads and writes the store:
- route assignment gives each row without a route the next route from a user-chosen seed;
- five constructor plugins turn each template row into routes, departures, selections and
  customer extensions;
- validation appends one message per failing field.

Plugins register themselves with a `PluginInterface`. `trigger('ON_PROCESS')` runs, one after
another, the callbacks of the enabled plugins whose triggers name that event. At the end every
record of every view is saved back to Excel.

The model has these modules:

- **Py**: the pieces of Python the source relies on:
  - list positions, with negative indexes counting from the end;
  - `str(n)` and reading it back;
  - the order of `str` values and `max`;
  - `', '.join`.
- **Externals**: what the application observes of pydantic, `many_more_routes` and
  `route_sequence`:
  - a record is an `_api` name plus its attributes;
  - validation returns a validated copy or a list of field errors;
  - a constructor returns the records it yields and the exception that ends it, if any;
  - route strings have a validity test, a successor and a sequence of routes.

  All of these are fields of the `Env` parameter.
- **Models**: `models.py`:
  - the exception and error records;
  - the Qt table adapter. `TableModel` is `OutputRecordModel` and `RecordView` is
    `OutputRecordView`. Both are classes with the fields the source updates.
- **Store**: `ModelViewController` and the record operations of `PluginInterface`. Each
  operation is a function on the store's state `StoreState`. The class's methods are proved
  to leave exactly that function's result, and to keep the store well formed:
  - the key list is the dict's insertion order;
  - no view is empty;
  - each record sits in the view named by its `_api`.
- **PluginBase**: the four events, `Button` and `Trigger` of `plugin.py`.
- **CorePlugins**: `plugins/core.py`. Each plugin's `main` is a method on the store, proved
  against a function that says what one run does: whether it raises, the new store, and the
  error prompts it shows.
- **Procedures**: the generators of `procedures.py`, as functions building the sequence of
  records they yield.
- **App**:
  - plugin registration and `trigger`, as classes `PluginInterface` and `Plugin`;
  - what the callbacks do when fired in turn;
  - the non-GUI part of the window's load, process and save callbacks.

Dialogs, message boxes, the prompt and the Excel reader are parameters:
- the prompt is a function from the proposed text to the user's reply;
- the loaded sheet is the rows `load_excel` yields, plus the KeyError it may raise;
- error prompts are returned as a list of messages.

## Model

| member | source | states |
|---|---|---|
| Py.Position | src/making_routes/app.py:90 | A Python list position is valid exactly when -n <= i < n. It selects element i, or n + i for a negative i. Otherwise the lookup raises IndexError. |
| Py.NatToString | src/making_routes/plugins/core.py:78 | `str(n)` is a non-empty string of decimal digits. |
| Py.NatToStringNoLeadingZero | src/making_routes/plugins/core.py:78 | `str(n)` has no leading zero: only `str(0)` starts with "0". |
| Py.NatToStringRoundTrip | src/making_routes/plugins/core.py:78 | Reading the digits of `str(n)` back gives `n`. |
| Py.MaxStr | src/making_routes/plugins/core.py:32 | `max` of a non-empty list of strings is an element of the list, and no element is greater in Python's string order. |
| Py.StrBelowTransitive | src/making_routes/plugins/core.py:32 | Python's string order is transitive. |
| Py.StrBelowIrreflexive | src/making_routes/plugins/core.py:32 | No string is below itself. |
| Py.StrBelowTotal | src/making_routes/plugins/core.py:32 | Any two different strings are ordered one way or the other. |
| Py.GreatestUnique | src/making_routes/plugins/core.py:32 | A list of strings has at most one greatest element, so the seed does not depend on how `max` finds it. |
| Py.Join | src/making_routes/procedures.py:66 | Joining one string gives that string, and joining none gives the empty string. Joining two or more starts with the first string followed by the separator. |
| Py.JoinSnoc | src/making_routes/procedures.py:66 | Joining one more string appends the separator and that string. |
| Py.JoinPair | src/making_routes/procedures.py:66 | Joining two strings puts the separator between them. |
| Externals.AttrOr | src/making_routes/plugins/core.py:107 | `getattr(r, name, default)` is the attribute when the record has it, and the default otherwise. |
| Externals.SetAttr | src/making_routes/plugins/core.py:44 | `setattr` sets the one attribute. It keeps `_api` and every other attribute. |
| Externals.Revalidated | src/making_routes/plugins/core.py:61-73 | Re-validating returns the validated copy when validation succeeds, and the record's attributes unvalidated when it fails. |
| Models.ExceptionDict | src/making_routes/models.py:14-22 | `dict()` has exactly the keys source, message and data, and it keeps every attribute: rebuilding the exception from it gives the same exception. |
| Models.SimpleErrorRecord | src/making_routes/models.py:25-29 | A SimpleErrorModel has `_api` VALIDATION and carries the given message. |
| Models.ErrorRecord | src/making_routes/models.py:31-40 | An ErrorModel has `_api` VALIDATION and exactly its six attributes. It carries the given source, field and message. |
| Models.ItemFlags | src/making_routes/models.py:58-62 | A cell is always enabled and selectable, and editable exactly when the model is. |
| Models.ChooseSchema | src/making_routes/models.py:47-53 | The model uses the schema it is given; otherwise the first record's schema. When there is no record, or `schema()` raises, it uses the fallback, whose one property key is `''`. |
| Models.CellValue | src/making_routes/models.py:70-80 | For another role, or an invalid index, the cell is None. Otherwise it raises IndexError exactly when the row or column is out of range. If not, it is the record's attribute named by the column's key, or None when the record lacks it. |
| Models.TableModel.Data | src/making_routes/models.py:70-80 | For another role, or an invalid index, the cell is None. Otherwise it raises IndexError exactly when the row or column is out of range, and is the row's attribute under the column's key, or None when the record lacks it. |
| Models.TableModel.HeaderData | src/making_routes/models.py:82-96 | Another role gives None and the vertical header is the section. Across the top, section i is the i-th property key and a negative section -k the k-th from the end; the header is None exactly outside those positions. |
| Models.HeaderOf | src/making_routes/models.py:82-96 | Across the top, section i is the i-th property key, and a negative section -k is the k-th key from the end. The header is None exactly outside -n..n-1. Down the side, the header is the section number. Another role gives None. |
| Models.Stored | src/making_routes/models.py:103-104 | An edited empty string is stored as None; any other value is stored as it is. |
| Models.EditedRows | src/making_routes/models.py:98-117 | An edit raises exactly when the row or the column is not a valid Python position: IndexError for the row, else TypeError for a column with no header. Otherwise the number of rows is kept and every other row stays. The edited row becomes the record with that column's attribute set to the stored value, re-validated like any record. |
| Models.EditThenRead | src/making_routes/models.py:98-117 | Reading a cell after editing it shows the stored value (None for an empty string), when the edited record fails validation and is kept as edited. |
| Models.TableModel.constructor | src/making_routes/models.py:44-56 | The new model holds the chosen schema, a copy of the records and the editable flag. |
| Models.TableModel.Flags | src/making_routes/models.py:58-62 | The editable bit is set exactly when the model is editable, and the enabled bit always. |
| Models.TableModel.RowCount | src/making_routes/models.py:64-65 | One row per record. |
| Models.TableModel.ColumnCount | src/making_routes/models.py:67-68 | One column per schema property key. |
| Models.TableModel.SetData | src/making_routes/models.py:98-117 | An edit that succeeds answers True and leaves `EditedRows`: the one row re-validated with the attribute set. One that raises answers the exception and leaves the rows as they were. The schema and the flag never change. |
| Models.RecordView.constructor | src/making_routes/models.py:124-127 | A new view owns a model over the given records, with the view's editable flag and the records' schema. |
| Models.RecordView.Update | src/making_routes/models.py:129-132 | `update` replaces the model with a fresh one over the new records, built from the view's editable flag. |
| Models.RecordView.Get | src/making_routes/models.py:139-140 | `get()` returns the model's records, one per row of the model. |
| Models.RecordView.Clear | src/making_routes/models.py:134-137 | `clear` leaves a fresh model with no rows that keeps the previous schema. |
| Models.RecordView.ToggleEditable | src/making_routes/models.py:142-143 | Toggling flips the model's flag only: the rows and the schema stay. |
| Models.ToggleThenUpdate | src/making_routes/models.py:129-143 | A toggle does not survive an update: the new model takes the view's own flag, which toggling never changes. |
| PluginBase.EventName | src/making_routes/plugin.py:26-31 | Every event is named by one of the four literals, and reading the name back gives the event. |
| PluginBase.EventFromName | src/making_routes/plugin.py:26-31 | A string names an event exactly when it is one of the four literals. |
| PluginBase.EventFromNameRoundTrip | src/making_routes/plugin.py:26-31 | A string that names an event is that event's name, so no two events share a name. |
| Store.Appended | src/making_routes/app.py:54-59 | The record goes to the end of the view named by its `_api`. That view is created last in key order when it is absent. No other view changes, and the protected set stays. |
| Store.AppendedWellformed | src/making_routes/app.py:54-59 | An append keeps the store well formed. |
| Store.AppendAllViews | src/making_routes/app.py:54-59 | After appending a list of records, each view is its old records followed by the new records that carry its name. The old key order is kept as a prefix, and the protected set stays. |
| Store.AppendAllConcat | src/making_routes/app.py:54-59 | Appending `a` then `b` is appending `a + b`. |
| Store.Protected | src/making_routes/app.py:62-66 | Protecting a name with no view raises LookupError. While the set has never been assigned it raises AttributeError. Otherwise the name joins the protected set and the views stay. |
| Store.GetView | src/making_routes/app.py:68-69 | `get_view` raises KeyError exactly when there is no such view, and otherwise returns its records. |
| Store.Cleared | src/making_routes/app.py:71-79 | A forced clear leaves no views and an empty protected set. An unforced clear keeps exactly the protected views, unchanged, with their names in their old order. It raises AttributeError, before anything is dropped, when there are views but the protected set was never assigned. |
| Store.ClearedWellformed | src/making_routes/app.py:71-79 | A clear keeps the store well formed. |
| Store.KeepOnlyMembers | src/making_routes/app.py:73-76 | The names left by the clear are exactly the old names that are protected, in their old order, each once. |
| Store.KeepOnlyInOrder | src/making_routes/app.py:73-76 | The names a clear keeps appear at strictly increasing old positions, and every protected old name is among them: the clear keeps the old order. |
| Store.RemoveMembers | src/making_routes/app.py:76 | `views.pop(key)` drops that name from the key order and keeps every other name. |
| Store.Pop | src/making_routes/app.py:76 | `views.pop(key)` drops that view and keeps every other view unchanged. |
| Store.ClearWalkEnds | src/making_routes/app.py:73-76 | Walking the copied key list and popping each unprotected name ends at the protected views. |
| Store.ListRecords | src/making_routes/app.py:88-96 | An integer i picks the view at position i in key order, and a negative -k the k-th from the end. It raises IndexError out of range. A name raises ValueError exactly when it has no view. Otherwise the result is that view's records. |
| Store.Enumerate | src/making_routes/app.py:117 | `enumerate` pairs each record with its index. |
| Store.ListAllRecordsExact | src/making_routes/app.py:116-117 | `list_all_records` lists exactly the store's records. Each comes with its index in its own view, and every record of every view appears. |
| Store.Updated | src/making_routes/app.py:98-99 | Updating raises KeyError when the record's `_api` has no view. It raises IndexError when the index is not a valid Python position in that view. Otherwise exactly that one record of that one view is replaced, a negative index counting from the end. |
| Store.UpdatedWellformed | src/making_routes/app.py:98-99 | An update keeps the store well formed. |
| Store.AllRecordsEmpty | src/making_routes/app.py:274-276 | There is nothing to save exactly when there is no view. |
| Store.AppendAsWritten | src/making_routes/app.py:54-59 | As written, an append raises exactly when the record's view already exists. |
| Store.AppendAsWrittenRejectsSecond | src/making_routes/app.py:56 | As written, a second record with the same `_api` always raises AttributeError. |
| Store.ListAsWritten | src/making_routes/app.py:96 | As written, `list_records` never returns records: it raises AttributeError wherever the corrected lookup would have returned some. |
| Store.UpdateAsWritten | src/making_routes/app.py:99 | As written, `update_record` always raises: TypeError whenever the view exists. |
| Store.ModelViewController.constructor | src/making_routes/app.py:50-52 | A new controller has no views and no protected set. |
| Store.ModelViewController.AppendRecord | src/making_routes/app.py:54-59 | The new state is exactly `Appended` of the old one, and the store stays well formed. |
| Store.ModelViewController.Protect | src/making_routes/app.py:62-66 | The method raises exactly what `Protected` raises, and then changes nothing. Otherwise it leaves `Protected`'s state. |
| Store.ModelViewController.Clear | src/making_routes/app.py:71-79 | The method raises exactly what `Cleared` raises, and then changes nothing. Otherwise it leaves `Cleared`'s state; the loop invariant ties each pop to `ClearWalk`. |
| Store.ModelViewController.UpdateRecord | src/making_routes/app.py:98-99 | The method raises exactly what `Updated` raises, and then changes nothing. Otherwise it leaves `Updated`'s state. |
| CorePlugins.MakePluginFactory | src/making_routes/plugins/core.py:49-82 | The made class has no buttons and exactly one trigger, ON_PROCESS, calling its own `main` for the given constructor. It is enabled exactly as the `enable` argument says. |
| CorePlugins.Buttons | src/making_routes/plugins/core.py:24-25 | AssignRoutes has one "Assign Routes" button and ValidatePlugin one "Validate" button, each calling its `main`. The base class and made classes have none. |
| CorePlugins.Triggers | src/making_routes/plugins/core.py:54-55 | A made class has exactly one trigger: ON_PROCESS, calling its own `main`. Every other class has none. |
| CorePlugins.Enabled | src/making_routes/plugin.py:131-136 | The base class is disabled; a made class is enabled as its `enable` argument says; AssignRoutes and ValidatePlugin are enabled. |
| CorePlugins.PendingExact | src/making_routes/plugins/core.py:43 | The rows route assignment pairs with routes are exactly those with no ROUT, each once, in ascending order. |
| CorePlugins.Zip | src/making_routes/plugins/core.py:43 | `zip` pairs element for element, up to the shorter list. |
| CorePlugins.Routed | src/making_routes/plugins/core.py:44 | Setting ROUT keeps `_api` and the other attributes. The record has a route afterwards unless the route is empty. |
| CorePlugins.AssignedRoutesExact | src/making_routes/plugins/core.py:42-45 | The j-th row without a route gets the j-th route while routes last. Rows past the routes, and every row that already had a route, keep what they had. |
| CorePlugins.AssignedRoutesComplete | src/making_routes/plugins/core.py:42-45 | With at least as many non-empty routes as unrouted rows, no row is left without a route. |
| CorePlugins.RoutValues | src/making_routes/plugins/core.py:32 | `[r.ROUT for r in records]` succeeds exactly when every record has ROUT, and then lists them in order. |
| CorePlugins.ValidRoutes | src/making_routes/plugins/core.py:32 | The filter keeps exactly the string values that are valid route strings. |
| CorePlugins.ProposedSeed | src/making_routes/plugins/core.py:31-34 | The proposed seed is empty when a record lacks ROUT or no route is valid. A non-empty seed is the successor of a greatest valid route. |
| CorePlugins.ProposedSeedOfGreatest | src/making_routes/plugins/core.py:32 | The seed is the successor of the greatest valid route, or empty when that successor cannot be formed. |
| CorePlugins.AssignRoutesRunCases | src/making_routes/plugins/core.py:27-45 | With no view, `main` raises IndexError and changes nothing. A cancel changes nothing. A confirmed invalid seed shows "Seed ... is invalid" and changes nothing. A confirmed valid seed changes only the first view, to its rows with routes assigned from the seed. |
| CorePlugins.AssignRoutesRunWellformed | src/making_routes/plugins/core.py:42-45 | Route assignment keeps the store well formed. |
| CorePlugins.AssignStep | src/making_routes/plugins/core.py:44-45 | Each `update_record(index, record)` of the loop succeeds and writes one more route into the first view. |
| CorePlugins.RunAssignRoutes | src/making_routes/plugins/core.py:27-45 | The loop of `update_record` calls leaves exactly the outcome, store and prompts of `AssignRoutesRun`. |
| CorePlugins.RowMessageNamesRow | src/making_routes/plugins/core.py:78 | The error message starts "Error processing row ", and the row number can be read back right after it. |
| CorePlugins.RowOutputs | src/making_routes/plugins/core.py:59-80 | One template row adds every result of the constructor, validated when possible, in order. If the constructor raised, one SimpleErrorModel naming the row follows. |
| CorePlugins.MadeRecordsConcat | src/making_routes/plugins/core.py:58 | Each row's records follow those of the rows before it. |
| CorePlugins.MakeRunViews | src/making_routes/plugins/core.py:57-80 | A made class's `main` raises ValueError, changing nothing, exactly when there is no TEMPLATE_V3 view. Otherwise each view becomes its old records followed by the made records of its name. Nothing else changes. |
| CorePlugins.MakeRow | src/making_routes/plugins/core.py:59-80 | Appending one row's results record by record leaves `RowOutputs` appended. |
| CorePlugins.RunMake | src/making_routes/plugins/core.py:57-80 | The row loop leaves exactly the outcome and store of `MakeRun`. |
| CorePlugins.ValidationLineNamesLine | src/making_routes/plugins/core.py:107 | A validation message starts with the record's bracketed `_api`, and the line number can be read back after "(Line ". |
| CorePlugins.ErrorsOf | src/making_routes/plugins/core.py:100-109 | A record that validates adds nothing. One that fails adds one message record per error, in the order of the errors. |
| CorePlugins.ValidationRecordsOfValid | src/making_routes/plugins/core.py:98-109 | When every listed record validates, validation appends nothing. |
| CorePlugins.ValidationRecordsCount | src/making_routes/plugins/core.py:103-109 | Exactly one message record is appended per validation error. |
| CorePlugins.ValidateRunViews | src/making_routes/plugins/core.py:97-109 | Validation never raises and shows no prompt. Each view becomes its old records followed by the messages with its name. A store whose records all validate is unchanged. |
| CorePlugins.ValidateOne | src/making_routes/plugins/core.py:100-109 | Validating one listed record appends exactly `ErrorsOf` that record. |
| CorePlugins.RunValidate | src/making_routes/plugins/core.py:97-109 | The loop over `list_all_records` leaves exactly the store of `ValidateRun`. |
| Procedures.ConstructedNoRaise | src/making_routes/procedures.py:44-49 | When no constructor raises, `yield_records` yields the results of the constructors, concatenated in order. |
| Procedures.ConstructedRaise | src/making_routes/procedures.py:44-51 | When the i-th constructor is the first to raise, its results and those before it are followed by exactly one ErrorModel with its message. Nothing comes after that. |
| Procedures.YieldRecordsOrder | src/making_routes/procedures.py:41-49 | Without exceptions the output is: the record, MakeRoute's results twice, then the results of MakeDeparture, MakeSelection, MakeCustomerExtension and MakeCustomerExtensionExtended. |
| Procedures.YieldRecords | src/making_routes/procedures.py:41-51 | The template record is yielded first, then what the constructors yield. |
| Procedures.YieldRecordsRaise | src/making_routes/procedures.py:41-51 | When a constructor raises, the output ends with one ErrorModel from source yield_records carrying its message. |
| Procedures.ErrorMessage | src/making_routes/procedures.py:67 | The message is the error's msg and type, followed by the template's value of the failing field when the template has that field. |
| Procedures.ErrorMessageAsWrittenDiffers | src/making_routes/procedures.py:67 | The message as written agrees with the intended one exactly when the template has the failing field. Otherwise it is empty. |
| Procedures.ErrorMessageAsWrittenExample | src/making_routes/procedures.py:67 | A template without ROUT, whose ROUT is reported missing, gets an empty message as written, and a non-empty one as intended. |
| Procedures.FieldErrorRecord | src/making_routes/procedures.py:64-68 | The ErrorModel's source is the output's `_api`. Its field is the joined `loc`, and its message is `ErrorMessage`. |
| Procedures.EmittedExact | src/making_routes/procedures.py:57-68 | An output that validates becomes its validated copy alone. One that fails stays as it is, followed by one ErrorModel per error, in order. |
| Procedures.ConfiguredConcat | src/making_routes/procedures.py:57 | Outputs are configured one after the other, independently. |
| Procedures.ConfiguredCount | src/making_routes/procedures.py:57-68 | Each output yields one record plus one per validation error. |
| Procedures.ConfiguredAllValid | src/making_routes/procedures.py:57-59 | When every output validates, the configuration is their validated copies, position for position. |
| Procedures.MakeRouteConfiguration | src/making_routes/procedures.py:54-68 | The configuration is what the template record itself becomes, followed by the configured outputs of the constructors. It holds one record per yielded record plus one per validation error. When every yielded record validates, it is their validated copies, position for position. |
| App.MatchingExact | src/making_routes/app.py:126-127 | A callback is fired for a plugin exactly when one of its triggers on the event names it. |
| App.FiredExact | src/making_routes/app.py:125-128 | `trigger(e)` fires a callback exactly when some enabled registered plugin has a trigger on `e` with that callback. |
| App.FiredSkipsDisabled | src/making_routes/app.py:125 | A plugin that is not enabled adds nothing, whatever its triggers. |
| App.FiredSnoc | src/making_routes/app.py:125-128 | One more plugin at the back adds its callbacks at the back. |
| App.FiredConcat | src/making_routes/app.py:125-128 | Firing over two runs of plugins fires over each in turn. |
| App.ContributionOf | src/making_routes/plugins/core.py:51-55 | Only an enabled made class contributes to a trigger, and only on ON_PROCESS, and only its own `main`. |
| App.FiredAllMade | src/making_routes/plugins/core.py:51-55 | Enabled made classes fire their `main` in order on ON_PROCESS, and nothing on another event. |
| App.FactoryFired | src/making_routes/plugins/core.py:84-88 | The module's five made classes fire the mains of MakeRoute, MakeDeparture, MakeSelection, MakeCustomerExtension and MakeCustomerExtensionExtended, in that order. |
| App.StartFired | src/making_routes/app.py:141-148 | With the window's seven plugins, ON_PROCESS runs exactly the five constructor plugins' `main`, in that order. No other event fires anything. |
| App.ProcedureRunWellformed | src/making_routes/app.py:128 | Every callback keeps the store well formed. |
| App.CallbacksKeepWellformed | src/making_routes/app.py:128 | Every call of a plugin callback keeps the store well formed. |
| App.FiredRunWellformed | src/making_routes/app.py:125-128 | Running the fired callbacks in turn keeps the store well formed. |
| App.FiredRunConcat | src/making_routes/app.py:125-128 | Running `a + b` runs `a`. If that raised, nothing more happens. Otherwise `b` runs on the store `a` left, and the prompts add up. |
| App.FiredRunSnoc | src/making_routes/app.py:128 | One more callback runs on the store the earlier ones left. |
| App.FiredRunStops | src/making_routes/app.py:128 | Once a callback raises, the exception leaves `trigger` and no later callback runs. |
| App.CallbacksAppendsGrow | src/making_routes/plugins/core.py:57-109 | The made classes' and validation's `main` only append: every view keeps its old records as a prefix, and the protected set stays. |
| App.FiredRunGrows | src/making_routes/app.py:125-128 | Firing only appending callbacks keeps every view as a prefix of what it becomes, and keeps the protected set. |
| App.PluginInterface.constructor | src/making_routes/app.py:83-86 | A new interface has a fresh, empty controller and no plugins. |
| App.PluginInterface.Register | src/making_routes/app.py:110-111 | Registering adds the plugin once: registering it again changes nothing. |
| App.PluginInterface.Kinds | src/making_routes/app.py:113-114 | The classes of the plugins `list_plugins` returns, one per registered plugin. |
| App.PluginInterface.Trigger | src/making_routes/app.py:119-128 | `trigger(e)` leaves the store, outcome and prompts of running, in turn, the callbacks `Fired` selects for the registered plugins. |
| App.FirePlugins | src/making_routes/app.py:125-128 | The outer loop over plugins leaves what running the callbacks of the enabled ones leaves. It stops at the first exception. |
| App.FireTriggers | src/making_routes/app.py:126-128 | The inner loop over one plugin's triggers runs the matching callbacks in order and stops at the first exception. |
| App.FireStep | src/making_routes/app.py:126-128 | One turn of the inner loop: another event changes nothing; a matching trigger runs its callback next; an exception in it ends the whole run. |
| App.TriggerStep | src/making_routes/app.py:125-128 | One turn of the outer loop: a disabled plugin changes nothing; an enabled one runs its callbacks next; an exception in them ends the whole trigger. |
| App.RunProcedure | src/making_routes/app.py:128 | Calling a callback does what that plugin's `main` does, on the interface's store. |
| App.Plugin.constructor | src/making_routes/plugin.py:109-115 | A new plugin keeps its interface and is registered with it. |
| App.Start | src/making_routes/app.py:141-148 | The window registers AssignRoutes, the five made classes in module order, then ValidatePlugin, on a fresh empty store. |
| App.LoadedRecords | src/making_routes/app.py:238-245 | One record per row, in order. Each is the row's attributes as a TEMPLATE_V3 record: validated when it can be, else as it is. When validation keeps a record's class, every loaded record has `_api` TEMPLATE_V3. |
| App.LoadTemplate | src/making_routes/app.py:227-252 | Loading is a forced clear, then each row appended as a TEMPLATE_V3 record. A KeyError is shown and ends the load; otherwise TEMPLATE_V3 is protected. The method leaves exactly what `LoadRun` says. |
| App.LoadRunTemplate | src/making_routes/app.py:227-252 | When validation keeps a record's class, a load leaves exactly one view, TEMPLATE_V3, holding the loaded rows in order, and protects it. Whatever was there before is gone. Without a chosen file the store is just cleared. A KeyError is shown and leaves the rows read so far unprotected. With no rows, protecting raises LookupError. |
| App.LoadedInOneView | src/making_routes/app.py:238-245 | Appending records of one `_api` to an empty store makes exactly that one view. |
| App.ProcessTemplate | src/making_routes/app.py:254-257 | Processing is an unforced clear, then `trigger('ON_PROCESS')` on the interface's plugins. It leaves exactly what `ProcessRun` says. |
| App.ProcessKeepsTemplate | src/making_routes/app.py:254-256 | With the window's plugins, processing keeps the protected template view: its old rows stay at its front, and the protected set stays. |
| App.SaveChoice | src/making_routes/app.py:270-279 | When records are written, there is at least one. |
| App.SaveChoiceExact | src/making_routes/app.py:270-279 | Without a chosen file nothing is written. With one, a blank template is written exactly when the store has no view, and otherwise every record of every view, view after view. |

## Left out

- The GUI is not modelled: the Qt window, tabs, toolbar, actions, `refresh`, `_new_template_cb`, the status tip and `main()`. The dialogs and message boxes appear only as the parameters and message lists described above.
- `load_excel`, `save_excel` and `save_template` do file I/O and are not modelled. Loading is given as the rows read plus the KeyError raised, if any. Saving is stated as what would be written (`App.SaveChoice`).
- Records are values. So the in-place `setattr` on a record shared between a view and its caller, and any aliasing between views and callers, are not modelled. `MakeRouteConfiguration`'s `record.copy()` needs no counterpart.
- App.PluginInterface.Kinds: the registered plugins are a Python `set`, whose iteration order is unspecified. The model keeps them in registration order, so claims about the order of fired callbacks assume that order.
- App.PluginInterface.Trigger: the callbacks are plugin `main` methods on the interface's own store, represented by the `Procedure` that names them. The method takes the step function as a ghost argument and requires that it is the plugins' callbacks. `App.ProcessTemplate` supplies exactly those callbacks.
- `ModelViewController.views` is a class-level dict, shared by every controller in the source. Each controller in the model has its own, starting empty.
- `SimpleValidationModel` (imported at `plugins/core.py:5`) is not defined in `models.py`. Its record is the `validationRecord` field of `Env`.
- The imports of `plugins/core.py:5` and `procedures.py:1-6` name classes that `models.py` does not define. As written, importing `plugins/core.py`, and so `app.py`, or `procedures.py` fails with ImportError. The model describes the code as if those classes existed.
- `Template`, `Route`, `Departure`, `Selection`, `CustomerExtension` and `CustomerExtensionExtended` (imported at `procedures.py:1-6`) are not defined in `models.py`. They are records like any other here.
- `RouteConfiguration` and `ExceptionOutput` in `procedures.py` are never used and are not modelled.
- `validate_record` is the `validate` field of `Env`.
- Procedures.FieldErrorRecord: builds the message with the corrected `ErrorMessage`, not the as-written one of `procedures.py:67` (see Findings). So `FieldErrorRecord`, `Emitted` and `MakeRouteConfiguration` describe the intended pipeline. It differs from the code as written whenever the template lacks the failing field.
- App.LoadedRecords: `UnvalidatedTemplate(**record)` is taken not to raise, and its `dict()` is taken to be the row's attributes. `ValidatedTemplate` is a record class whose `_api` is TEMPLATE_V3, and so is a record from `ValidatedTemplate.construct`.
- App.LoadRunTemplate: requires that validation keeps a record's class (`Externals.KeepsClass`), as `type(r)(**r.dict())` does. `Env` does not enforce it.
- CorePlugins.AssignRoutesRun, CorePlugins.MakeRun, App.LoadRun: these runs, their methods `RunAssignRoutes`, `RunMake` and `LoadTemplate`, and `ProcessRun` through them, describe the program with the three corrections of Findings: `Store.Appended`, `Store.ListRecords` and `Store.Updated`. As written the code does differently:
  - `AssignRoutes.main` raises AttributeError at `app.py:96` whenever a view exists, before it prompts.
  - A made class's `main` raises AttributeError at `app.py:96` exactly when a TEMPLATE_V3 view exists, appending nothing, so `trigger('ON_PROCESS')` stops at the first enabled made class.
  - Loading two or more rows raises AttributeError at `app.py:56` on the second row. That error escapes `except KeyError` (`app.py:247`), so TEMPLATE_V3 keeps only the first row and is never protected.
- `ValidatePlugin`'s `prompt_error` branch (`plugins/core.py:111-112`) is never reached in the model. With `list_records` corrected, nothing in its `main` raises.
- CorePlugins.ProposedSeed: `RouteSequence.is_valid_str(None)` is taken to be False, and a missing ROUT attribute makes the seed empty.
- The route sequence is reduced to three functions of `Env`: the validity test, the successor, and the routes of `RouteSequence(text) - 1` as strings.
- Externals.Value: an attribute value is only `None` or a `str`. The rows of `load_excel` and pydantic fields typed `Any` (`models.py:33-40`) can also hold numbers, dates and booleans, and the model does not capture what these change:
  - the truthiness of non-strings in `not getattr(r, 'ROUT', None)` (`plugins/core.py:43`), where 0 and False are falsy;
  - `str()` of numbers in message text (`plugins/core.py:107`, `procedures.py:67`);
  - `value == ''` in `setData` (`models.py:103`), which only a string can meet.
- Error `loc` entries are taken to be strings. pydantic can also put integers there.
- `str(KeyError)` and `str(exception)` are carried as given strings.
- The value passed to `setData` is an attribute value: the PyQt4 `toPyObject` conversion is not modelled.

## Findings

| source | as written | input that shows it | evidently intended | confidence | as-written member | corrected member |
|---|---|---|---|---|---|---|
| src/making_routes/app.py:56 | `self.views[name].append(record)` calls `append` on an `OutputRecordView`, which has none. The AttributeError escapes the `except KeyError`. | two records with `_api` "TEMPLATE_V3" appended one after the other | the record is added at the end of its view | not executed | Store.AppendAsWrittenRejectsSecond | Store.Appended |
| src/making_routes/app.py:96 | `list_records` calls `.list()` on an `OutputRecordView`, which has no such method. | any `list_records()` on a store with one view | the view's records, as `get()` returns them | not executed | Store.ListAsWritten | Store.ListRecords |
| src/making_routes/app.py:99 | `update(index, record)` passes two arguments to `OutputRecordView.update(data)`, which takes one. | `update_record(0, r)` where `r._api` has a view | that one record of the view is replaced | not executed | Store.UpdateAsWritten | Store.Updated |
| src/making_routes/procedures.py:67 | the conditional expression binds looser than `+`, so the whole message is `''` when the template lacks the field | a template without ROUT whose error reports ROUT as missing | msg and type, plus the field's value only when present | not executed | Procedures.ErrorMessageAsWrittenExample | Procedures.ErrorMessage |
