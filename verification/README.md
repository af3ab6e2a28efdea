# Parameter-attribute scanner and plot-data bookkeeping, modelled in Dafny

This project models two small layers of the QCoDeS instrument-control framework and proves properties about them.

**1. The documentation attribute hook and its source scanner** (`qcodes/sphinx_extensions/parse_parameter_attr.py`).
- Sphinx cannot evaluate the parameters of an instrument class when it documents them. The hook instead reads the class's source text, finds its one `__init__` and collects every top-level `self.<name> = <expression>` statement. Each attribute is documented with a placeholder whose repr is the whitespace-normalised text of `<expression>`.
- Attributes are resolved in a fixed order: ordinary lookup first, then this scan over the class's method-resolution order, then Sphinx's default lookup.
- The parse tree is an inductive datatype:
  - `Leaf(value)`;
  - a generic `Node(kind, children)`;
  - `Class(name, children)` and `Function(name, children)`;
  - `ExprStmt(lhs, rhs)`, which keeps the assignment target and the source text of the right-hand side.
- The parser itself is not modelled; the tree it would produce is an input.
- Three host functions become inputs:
  - `inspect.getsource`: each class in the resolution order comes with its parsed source, or with the exception that fetching the source raised;
  - `inspect.getmro`: the resolution order is a sequence;
  - `safe_getattr`: the host's lookup is a partial function `string -> Option<V>`.

**2. Plot-data preparation in `plot_dataset`** (`src/qcodes/dataset/plotting.py`).
- **Complex splitting.** A record is `{name, label, unit, data, shape}`. Its samples are either complex (`C`) or real (`R`). The real part, imaginary part, magnitude and angle are uninterpreted functions. The splitter turns every complex record into two real ones:
  - a complex setpoint is replaced in place by its two components;
  - a complex dependent parameter (the last record of a group) splits the group into two groups.
- **Axis labels**, built from labels, names and units.
- **Keyword filtering** per plot type.
- **Clipping** of unmeasured (NaN, here `None`) rows and columns from shaped 2-D data.
- **`plot_dataset` bookkeeping**:
  - validating the complex-plot options;
  - splitting off figure-creation keywords;
  - providing one axes object per plot;
  - what each group draws;
  - one colorbar slot per axes object, with the final count check.

The modules follow the program's structure:

| module | file | models |
|---|---|---|
| `Outcomes` | outcomes.dfy | `Option`, `Result` and the Python exceptions that matter here |
| `ParseTree` | parse_tree.dfy | the parse tree and the descent rule shared by the class and constructor searches |
| `Whitespace` | whitespace.dfy | `" ".join(s.strip().split())` with Python's `isspace` set |
| `Scanner` | scanner.dfy | `ParameterProxy`, the searches, statement extraction, pattern match and map building |
| `AttrGetter` | attr_getter.dfy | `qcodes_parameter_attr_getter` and the resolution-order walk |
| `PlotRecords` | plot_records.dfy | records, groups and the complex-conversion options |
| `ComplexSplit` | complex_split.dfy | `_convert_complex_to_real` and `_complex_to_real_preparser` |
| `AxisLabels` | axis_labels.dfy | `_get_label_of_data`, `_make_axis_label`, `_make_label_for_data_axis`, `_set_data_axes_labels` |
| `PlotKwargs` | plot_kwargs.dfy | `_appropriate_kwargs` |
| `ClipNan` | clip_nan.dfy | the rectilinear branch of `_clip_nan_from_shaped_data` |
| `PlotDataset` | plot_dataset.dfy | validation and axes/colorbar bookkeeping of `plot_dataset` |

Points about the code that are easy to misread:
- The clip (plotting.py:800-811) drops *every* row whose first `x` entry is NaN and *every* column whose first `y` entry is NaN, wherever it sits, not only incomplete rows at the end of a sweep. `ClipNan.ClipNanFromShapedData` does the same.
- The searches for the class and for `__init__` (parse_parameter_attr.py:37, 52) descend only into generic parser nodes. Compound statements (`if`, `for`, `while`, `try`, `with`) have their own node classes, so a class or a constructor defined inside one is never found. `ParseTree.CompoundIsClosed` states this.
- A lambda is, to the parser, a kind of function definition whose name cannot be read. The constructor search (parse_parameter_attr.py:47-49) reads the name of every function definition it meets, so a lambda visible in the class, such as `register(lambda: 0)` in the class body, raises `AttributeError`. The hook catches only `TypeError`, so this error escapes it. `Scanner.LambdaInClassBodyRaises` shows it.

## Model

| member | source | states |
|---|---|---|
| Scanner.ProxyReprIsItsText | qcodes/sphinx_extensions/parse_parameter_attr.py:20-27 | A placeholder's repr is exactly the text it was built from. |
| ParseTree.Scan | qcodes/sphinx_extensions/parse_parameter_attr.py:33-39 | The shared search returns only matching trees, returns every matching direct child, and returns no more trees than are visible. |
| ParseTree.ScanSelectsVisible | qcodes/sphinx_extensions/parse_parameter_attr.py:34-38 | The search returns exactly the matching trees that are reachable through generic nodes only, in document order. |
| ParseTree.DefinitionsAreClosed | qcodes/sphinx_extensions/parse_parameter_attr.py:37-38 | Nothing inside a class or a function definition is ever searched. So nested classes and nested `__init__`s are not found. |
| ParseTree.CompoundIsClosed | qcodes/sphinx_extensions/parse_parameter_attr.py:37-38 | A compound statement is not a generic node, so a class inside an `if` block (or any other compound statement) is neither visible nor found. |
| ParseTree.ScanInit | qcodes/sphinx_extensions/parse_parameter_attr.py:42-54 | The constructor search as it runs raises `AttributeError` exactly when a lambda is visible, and otherwise returns what the shared search finds. |
| Scanner.FindClass | qcodes/sphinx_extensions/parse_parameter_attr.py:30-39 | `find_class` returns, in document order, every visible class with the given name, and nothing else. |
| Scanner.FindInitFunc | qcodes/sphinx_extensions/parse_parameter_attr.py:42-54 | `find_init_func` raises `AttributeError` exactly when a lambda is visible. Otherwise it returns, in document order, every visible function named `__init__`, and nothing else. |
| Scanner.ParseInitFunction | qcodes/sphinx_extensions/parse_parameter_attr.py:57-80 | When exactly one class matches, a lambda visible in it raises `AttributeError`. Otherwise a constructor is returned if and only if exactly one class matches and that class holds exactly one `__init__`, and the result is that `__init__`. |
| Scanner.StatementLines | qcodes/sphinx_extensions/parse_parameter_attr.py:93-98 | The result lists the first child of each line that starts with an assignment, in document order, matched position by position to the increasing list of those lines. Other lines, compound statements included, give nothing. A childless line node raises `IndexError`. |
| Scanner.AssignmentLines | qcodes/sphinx_extensions/parse_parameter_attr.py:93-98 | The positions of the lines whose first child is an assignment: increasing, and a position is listed exactly when its line starts with an assignment. |
| Scanner.ExtractStatements | qcodes/sphinx_extensions/parse_parameter_attr.py:83-100 | A function without exactly one body suite fails the assertion. Otherwise the result is the first child of each top-level line of that suite that starts with an assignment, in document order, and nothing from nested blocks. A childless line raises `IndexError`. |
| Scanner.ExtractCodeAsRepr | qcodes/sphinx_extensions/parse_parameter_attr.py:121-143 | An entry is produced if and only if the target is `self` followed by one node whose second child is a leaf. That leaf names the entry, and the placeholder text is tidy with the same words as the right-hand side. The function raises if and only if that node has fewer than two children. |
| Whitespace.Normalize | qcodes/sphinx_extensions/parse_parameter_attr.py:137 | The normalised text has no outer whitespace and no whitespace except single spaces, and it keeps the word sequence of its input. |
| Whitespace.NormalizeKeepsTidy | qcodes/sphinx_extensions/parse_parameter_attr.py:137 | Already normalised text is a fixed point of the normalisation. |
| Whitespace.NormalizeIdempotent | qcodes/sphinx_extensions/parse_parameter_attr.py:137 | Normalising twice gives the same text as normalising once. |
| Scanner.SelfAttributeIsExtracted | qcodes/sphinx_extensions/parse_parameter_attr.py:127-139 | `self.<name> = <rhs>` gives `<name>` with the normalised `<rhs>`. |
| Scanner.SubscriptIsTakenAsAttribute | qcodes/sphinx_extensions/parse_parameter_attr.py:133-136 | The trailer after `self` is not checked to be a `.` access, so `self[k] = e` documents an attribute named `k`. |
| Scanner.OtherTargetsAreSkipped | qcodes/sphinx_extensions/parse_parameter_attr.py:127-143 | A plain name target and a two-step attribute chain give no entry. |
| Scanner.Collect | qcodes/sphinx_extensions/parse_parameter_attr.py:108-117 | A name has an entry if and only if some statement assigns it (or it had one before). Statements that raise or give nothing are skipped, and all placeholder texts stay tidy. |
| Scanner.LastAssignmentWins | qcodes/sphinx_extensions/parse_parameter_attr.py:115-117 | The entry for a name comes from the last statement that assigns it. |
| Scanner.UnassignedIsKept | qcodes/sphinx_extensions/parse_parameter_attr.py:110-117 | A name that no statement assigns keeps its entry. |
| Scanner.CollectFrom | qcodes/sphinx_extensions/parse_parameter_attr.py:107-118 | For one constructor, the map fails exactly when statement extraction fails, and only with an assertion or index error. Otherwise it holds exactly the names some top-level statement assigns. Each name gets the tidy placeholder of the last statement that assigns it. |
| Scanner.EvalParams | qcodes/sphinx_extensions/parse_parameter_attr.py:103-118 | The constructor search's `AttributeError` is passed on. Without a unique constructor the map is empty. With one, the map fails exactly when statement extraction fails, and it holds exactly the assigned names, each with the tidy placeholder of the last statement that assigns it. |
| Scanner.OneAssignmentIsRecovered | qcodes/sphinx_extensions/parse_parameter_attr.py:103-118 | A class whose constructor body is `self.x = e` is documented with exactly `x` mapped to the normalised `e`. |
| Scanner.DuplicateClassGivesNothing | qcodes/sphinx_extensions/parse_parameter_attr.py:61-67 | A class defined twice in one source text documents nothing. |
| Scanner.LambdaInClassBodyRaises | qcodes/sphinx_extensions/parse_parameter_attr.py:47-49 | A lambda in a class body makes scanning that class raise `AttributeError`. |
| AttrGetter.SafeGetattr | qcodes/sphinx_extensions/parse_parameter_attr.py:178-180 | The host lookup returns the attribute if found, else the first default. It raises `AttributeError` if and only if both are missing. |
| AttrGetter.ScanClass | qcodes/sphinx_extensions/parse_parameter_attr.py:164-167 | An exception raised while fetching the source is passed through unchanged. Scanning the source adds only the constructor search's `AttributeError` and the `AssertionError` and `IndexError` of statement extraction. The getter does not catch these (it catches only `TypeError`, line 171). A class without a unique constructor gives the empty map, and all texts are tidy. |
| AttrGetter.MroLookup | qcodes/sphinx_extensions/parse_parameter_attr.py:161-172 | The walk finds nothing if and only if every class skips the name, where skipping means `TypeError` or a map without the name. `TypeError` never escapes the walk. |
| AttrGetter.MroFirstDecides | qcodes/sphinx_extensions/parse_parameter_attr.py:163-172 | The first class that does not skip decides the walk: its entry is returned, or its exception escapes. |
| AttrGetter.MroFoundHasFirst | qcodes/sphinx_extensions/parse_parameter_attr.py:163-170 | A found placeholder is the entry of the first class that does not skip. |
| AttrGetter.ParameterAttrGetter | qcodes/sphinx_extensions/parse_parameter_attr.py:146-181 | Resolution order: non-instrument classes, non-classes and `_` names use plain lookup with the default. Otherwise normal lookup wins first. A documented placeholder comes from the first non-skipping class in the resolution order. If every class skips, the default lookup is used. |
| AttrGetter.FirstClassDecides | qcodes/sphinx_extensions/parse_parameter_attr.py:161-172 | When normal lookup fails, the first class of the resolution order that does not skip the name decides the result. |
| AttrGetter.ParameterAttrGetterAsWritten | qcodes/sphinx_extensions/parse_parameter_attr.py:173-180 | As written, a lookup that misses on a non-intercepted object returns the tuple of default arguments itself. |
| AttrGetter.DefaultTupleLeaks | qcodes/sphinx_extensions/parse_parameter_attr.py:178-180 | On a non-class object without the attribute: with default `d`, the as-written hook gives `(d,)` where the corrected one gives `d`. With no default, it gives `()` where the corrected one raises `AttributeError`. |
| PlotRecords.ParseConversion | src/qcodes/dataset/plotting.py:468-473 | Exactly `"real_and_imag"` and `"mag_and_phase"` name a conversion. |
| ComplexSplit.ConvertComplexToReal | src/qcodes/dataset/plotting.py:521-572 | Converting a complex record gives two records with these properties: both real; same number of samples; same shape; names and labels that read back as the original with component 0 or 1; units `(u, u)` or `(u, deg/rad)`; samples computed elementwise by real/imag or magnitude/angle. |
| ComplexSplit.SuffixesReadBack | src/qcodes/dataset/plotting.py:537-546 | Both suffix tables can be read back: appending either suffix identifies the original text and the component. |
| ComplexSplit.ExpandAll | src/qcodes/dataset/plotting.py:487-508 | Expanding a group in place adds one record per complex record and leaves no complex record. |
| ComplexSplit.ExpandInPlace | src/qcodes/dataset/plotting.py:493-497 | A complex record is replaced in place by its two components, with the records before and after it kept around it. |
| ComplexSplit.SplitGroup | src/qcodes/dataset/plotting.py:498-516 | A group becomes two groups exactly when its last record is complex, and one group otherwise. |
| ComplexSplit.GroupLoopIsSplitGroup | src/qcodes/dataset/plotting.py:484-516 | The per-group loop, with its `new_group`/`new_groups` state, computes the reference split: a shared expanded prefix ending in `p1` or in `p2`. |
| ComplexSplit.GroupGrowth | src/qcodes/dataset/plotting.py:493-506 | Each resulting group is longer than the original by the number of complex setpoints. |
| ComplexSplit.SplitAll | src/qcodes/dataset/plotting.py:484-518 | The output has one group per input group plus one per split group, and no complex record remains. |
| ComplexSplit.PreparseGroups | src/qcodes/dataset/plotting.py:475-518 | The loop over all groups equals the reference split of every group, in order. |
| ComplexSplit.ComplexToRealPreparser | src/qcodes/dataset/plotting.py:450-518 | An unknown conversion raises `ValueError`, and nothing else raises. Group order is kept, the group count grows by the number of split groups, and no complex record remains. |
| ComplexSplit.RealDataUnchanged | src/qcodes/dataset/plotting.py:507-513 | Data without complex records passes through unchanged. |
| AxisLabels.LabelOfData | src/qcodes/dataset/plotting.py:575-576 | The axis text is the label when it is non-empty, otherwise the name. It is empty only if both are empty. |
| AxisLabels.MakeAxisLabel | src/qcodes/dataset/plotting.py:579-583 | The label is a prefix of the result. Text is appended exactly when the unit is present and non-empty, and that unit reads back from the trailing parentheses. |
| AxisLabels.LabelForDataAxis | src/qcodes/dataset/plotting.py:586-589 | An index past the group raises `IndexError`. Otherwise the result starts with the record's label (or name) and carries its unit exactly when it has one. |
| AxisLabels.DataAxesLabels | src/qcodes/dataset/plotting.py:592-601 | The x and y labels come from records 0 and 1, and a group of fewer than two records raises `IndexError`. The colorbar is labelled exactly when one is given and a third record exists. |
| AxisLabels.PhaseAxisLabel | src/qcodes/dataset/plotting.py:529-589 | The phase component in degrees is labelled `<label> [phase] (deg)`. |
| AxisLabels.ComponentLabelHidesName | src/qcodes/dataset/plotting.py:536-576 | Components of a complex record always have non-empty labels, so an unlabelled complex record's axes show only the bracketed component, never the name. |
| PlotKwargs.ParsePlotType | src/qcodes/dataset/plotting.py:82-91 | A name parses only to the type it names, and a name that fails to parse is the name of no plot type. |
| PlotKwargs.AppropriateKwargs | src/qcodes/dataset/plotting.py:54-93 | An unknown plot type raises `KeyError`. Line types drop only `cmap`. Heatmap types keep every key and gain the default `cmap` exactly when no colorbar is present and none was given. All other values are unchanged. |
| PlotKwargs.AppropriateKwargsIdempotent | src/qcodes/dataset/plotting.py:73-93 | Adjusting an already adjusted map changes nothing. |
| PlotKwargs.HeatmapColormap | src/qcodes/dataset/plotting.py:77-80 | A heatmap without a colorbar always gets a colormap, and the caller's own colormap takes precedence. |
| ClipNan.Kept | src/qcodes/dataset/plotting.py:805-806 | The mask keeps exactly the positions whose entry is not NaN, in increasing order. |
| ClipNan.ClipNanFromShapedData | src/qcodes/dataset/plotting.py:799-811 | A row is kept exactly when its `x[i][0]` is not NaN, and a column exactly when its `y[0][j]` is not NaN. `z` is restricted to the kept rows and columns and transposed. |
| ClipNan.KeptValuesAreSomes | src/qcodes/dataset/plotting.py:805-809 | Masking with the not-NaN positions keeps exactly the defined values, in order. |
| ClipNan.ClipKeepsDefinedSetpoints | src/qcodes/dataset/plotting.py:803-809 | The setpoints returned are the defined entries of `x[:, 0]` and `y[0, :]`. |
| ClipNan.ClipWithoutNan | src/qcodes/dataset/plotting.py:799-811 | Without NaN setpoints nothing is clipped, and `z` is only transposed. |
| PlotDataset.SubplotKwargs | src/qcodes/dataset/plotting.py:183-185 | The creation keywords are exactly the caller's keywords that figure or subplot creation accepts, with their values. |
| PlotDataset.AxesList | src/qcodes/dataset/plotting.py:225-248 | Without given axes, `nplots` new axes are created from the creation keywords. Given axes are used if and only if no creation keywords were passed and their number is `nplots`; otherwise `RuntimeError`. |
| PlotDataset.PlotPanel | src/qcodes/dataset/plotting.py:279-361 | Two records draw a line plot of the detected 1-D type without `cmap`. Three records draw a heatmap with a new colorbar. The heatmap's type is "2D_grid" whenever the data has a shape, and the detected 2-D type otherwise. The keywords are `_appropriate_kwargs` of that type, and an added `cmap` is the configured default. Any other number of records draws nothing. Errors: an empty group raises `IndexError`; an unknown 1-D type raises `ValueError`; a 2-D type without a drawing function raises `KeyError`. |
| PlotDataset.PlotLoop | src/qcodes/dataset/plotting.py:279-361 | The loop stops at the shortest of groups, axes and colorbar slots, and each panel is what its group draws. On failure, the exception is that of a group all of whose predecessors drew, so it is the first failing group's. |
| PlotDataset.Render | src/qcodes/dataset/plotting.py:225-368 | Given axes together with creation keywords, or given axes in the wrong number, raise `RuntimeError`. A result has one axes object, one colorbar slot and one panel per group. Each slot holds the colorbar its panel drew, which exists exactly for three-record groups. The final count check fails only when fewer colorbars than plots were given. |
| PlotDataset.PlotDatasetAll | src/qcodes/dataset/plotting.py:188-211 | An unknown complex-plot type, then an unknown phase unit, raise `ValueError`. Otherwise the result is the bookkeeping on the split groups, with one axes object per split group. |
| PlotDataset.GivenAxesChecked | src/qcodes/dataset/plotting.py:231-248 | Passing axes together with creation keywords, or passing a number of axes other than the number of split groups, raises `RuntimeError`. |

## Left out

- Parsing source text with `parso`: the model takes the parse tree the parser would produce. Only the tree shapes the scanner inspects are represented.
- Which grammar rules the parser gives a dedicated node class: the model does not list them. A compound statement, import, `return` or decorator must be given as `ParseTree.Compound`, whose children are never searched, and not as a generic `Node`. A lambda must be given as `ParseTree.Lambda`.
- `inspect.getsource` and `inspect.getmro`: each class's parsed source (or the exception fetching it raised) and the resolution order are inputs.
- `setup` and the registration with Sphinx (parse_parameter_attr.py:184-194), and all logging: these are host configuration and side effects.
- An `ExprStmt` as the target of another assignment is treated as a tree without children. The grammar never puts an assignment there.
- Python's negative indices: the model only uses non-negative positions.
- `_get_data_from_ds` and the dataset: the groups of records are an input to `PlotDataset.PlotDatasetAll`.
- The `parameters` argument of `plot_dataset` (plotting.py:213-216 and 254-277): its filter removes groups from the list while iterating over it, so it has no clean contract. The model plots every group.
- A single `Axes` or `Colorbar` argument (plotting.py:218-223) is wrapped into a one-element list; the model takes the list form.
- Drawing: `plot_2d_scatterplot`, the `pcolormesh` path of `plot_on_a_plain_grid`, colorbar creation (the uninterpreted `drawColorbar`), rasterisation, string-valued axes, titles, and sorting line-plot points.
- Numeric content:
  - the values of real part, imaginary part, magnitude and angle (uninterpreted);
  - `_rescale_ticks_and_units`, `_make_rescaled_ticks_and_units` and `_scale_formatter`;
  - `auto_color_scale_from_config`.
- `get_1D_plottype`, `get_2D_plottype` and `reshape_2D_data` are not part of this model. The two plot-type detectors are uninterpreted fields of `PlotDataset.Backend`.
- `_clip_nan_from_shaped_data`: the floating-point rectilinearity test and its `reshape_2D_data` fallback (plotting.py:786-797, 812-824) are not modelled. NaN in `z` is carried as an ordinary value.
- `plot_and_save_image` (file output) and `plot_by_id` (database lookup).
- `inspect.signature` discovery of the creation keywords: the set of keys is an input.
- ClipNan.ClipNanFromShapedData: it requires non-empty arrays of one common shape, which is the only way its caller reaches it. The source would raise on empty arrays.
- AttrGetter.ParameterAttrGetterAsWritten: its contract states only the non-intercepted miss, which is where it differs from `AttrGetter.ParameterAttrGetter`. Its other paths are the same code as the corrected getter.

## Findings

| source | as written | input that shows it | evidently intended | confidence | as-written member | corrected member |
|---|---|---|---|---|---|---|
| qcodes/sphinx_extensions/parse_parameter_attr.py:178-180 | `safe_getattr(obj, name, default)` passes the tuple of extra arguments `default` as the single default | an object outside the instrument hierarchy (or a `_` name) without the attribute, looked up with one default `d` | `safe_getattr(obj, name, *default)`: return `d`, and raise `AttributeError` when no default is given | medium, not executed | AttrGetter.ParameterAttrGetterAsWritten (shown by AttrGetter.DefaultTupleLeaks) | AttrGetter.ParameterAttrGetter |
