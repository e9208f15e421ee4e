# Component-analysis setup

A model of the setup step of the base component-analysis filter of a
tomography data-processing pipeline. The plugin takes one input dataset and
writes two outputs: the "scores", which keep the input's shape except that
the last (spectral) axis is replaced by the number of components, and the
"eigenvectors", one spectrum-long row per component. Setup derives both
shapes from the input shape. It creates the scores from the input as a
template and then reshapes them. It creates the eigenvectors fresh, with two
axis labels, and registers a `SPECTRUM` pattern on them. Then it binds the
input and the scores to the pattern chosen by the `chunk` option, and the
eigenvectors to `SPECTRUM`, each with a frame count.

Two modules:

- `Framework` (framework.dfy): the framework objects that setup calls, as
  far as setup uses them. A `Dataset` class holds a shape, axis labels and a
  map from pattern names to `Pattern`s. A `PluginData` class holds a binding
  (pattern name and frame count). Their methods only record what they are
  given. `PartitionsAxes` says that a pattern names every axis exactly once,
  and `WellFormed` is the dataset invariant built from it.
- `ComponentAnalysis` (component_analysis.dfy): the shape functions, the
  value-level specification `SetupPlan` of everything setup hands to the
  framework, and the `BaseComponentAnalysis` class whose imperative `Setup`
  performs the same calls in the source's order. `Setup`'s postcondition says
  that the new state is exactly `SetupPlan` of the input dataset's old state.

The frame count `setup` passes to `plugin_data_setup` is a one-element
tuple: `get_max_frames` returns `(last input extent,)` and the outputs get
`(number_of_components,)`. It is modelled as a `seq<int>`.

## Model

| member | source | states |
|---|---|---|
| ComponentAnalysis.SpectraLength | savu/plugins/filters/base_component_analysis.py:51 | spectra_length is a one-element tuple holding the input's last extent; an empty input shape is excluded, because indexing `[-1]` fails on it |
| ComponentAnalysis.ImagesShape | savu/plugins/filters/base_component_analysis.py:52-54 | the scores' shape has the input's rank, agrees with the input on every axis but the last, and its last extent is the component count |
| ComponentAnalysis.ComponentsShape | savu/plugins/filters/base_component_analysis.py:53-55 | the eigenvectors' shape has exactly two axes: the component count, then the input's last extent |
| ComponentAnalysis.ScoresTimesEigenvectorsShape | savu/plugins/filters/base_component_analysis.py:51-55 | the scores' last axis matches the eigenvectors' first axis, and contracting the two gives back exactly the input shape, so the two output shapes determine the input shape |
| ComponentAnalysis.SetupPlan | savu/plugins/filters/base_component_analysis.py:47-69 | scores shape as above, with the input's labels and patterns (template copy) but the new shape (reshape after copy); eigenvectors of shape (components, spectrum) with the labels `idx.unit`, `spectra.unit` and only SPECTRUM registered, with core (1,) and slice (0,), which partitions their two axes; input and scores bound to the chunk, eigenvectors to SPECTRUM; input frames (last input extent,), output frames (components,); the eigenvectors' bound pattern is always registered on them, and the scores' one is registered exactly when the chunk is registered on the input |
| ComponentAnalysis.OutputsWellFormed | savu/plugins/filters/base_component_analysis.py:57-64 | from a well-formed input and a positive component count, both outputs are well formed: one label per axis, positive extents, and every pattern (the inherited ones included, since the rank is kept) partitions the axes |
| ComponentAnalysis.BaseComponentAnalysis.Setup | savu/plugins/filters/base_component_analysis.py:47-69 | with one input, two outputs and distinct objects, the plugin's fields, both output datasets and the three bindings end up exactly as SetupPlan of the input's old state says, so GetMaxFrames gives (last input extent,) and GetPluginPattern the chunk; the input dataset, the options and the dataset lists are unchanged |
| ComponentAnalysis.Defaults | savu/plugins/filters/base_component_analysis.py:31-35 | the default chunk is SINOGRAM, the default component count 3, whiten 1 and the input list empty |
| ComponentAnalysis.BaseComponentAnalysis.NInputDatasets | savu/plugins/filters/base_component_analysis.py:72-73 | the plugin declares exactly one input dataset |
| ComponentAnalysis.BaseComponentAnalysis.NOutputDatasets | savu/plugins/filters/base_component_analysis.py:75-76 | the plugin declares two output datasets, as many as its default output names (scores, eigenvectors) |
| ComponentAnalysis.BaseComponentAnalysis.GetMaxFrames | savu/plugins/filters/base_component_analysis.py:41-42 | once set up, the input's frame count is the one-element tuple of the input's last extent, and it is what the input's binding records |
| ComponentAnalysis.BaseComponentAnalysis.GetPluginPattern | savu/plugins/filters/base_component_analysis.py:44-45 | the plugin pattern is the chunk option, and once set up it is the pattern name that both the input's and the scores' bindings record |
| ComponentAnalysis.BaseComponentAnalysis.constructor | savu/plugins/filters/base_component_analysis.py:38-39 | a new plugin holds the options and the datasets the framework supplies, before setup has assigned anything |
| Framework.PartitionSplitsAxes | savu/plugins/filters/base_component_analysis.py:63-64 | a pattern that partitions the axes has disjoint core and slice tuples whose lengths add up to the rank |
| Framework.Dataset.CreateFromTemplate | savu/plugins/filters/base_component_analysis.py:57 | the dataset takes the template's shape, labels and patterns as values, so later changes leave the template as it was |
| Framework.Dataset.SetShape | savu/plugins/filters/base_component_analysis.py:58 | the shape is replaced and labels and patterns are kept |
| Framework.Dataset.Create | savu/plugins/filters/base_component_analysis.py:61-62 | the dataset gets the given shape and labels and no patterns |
| Framework.Dataset.AddPattern | savu/plugins/filters/base_component_analysis.py:63-64 | the pattern is registered under its name; the shape, labels and other patterns are kept |
| Framework.PluginData.PluginDataSetup | savu/plugins/filters/base_component_analysis.py:65-69 | the binding records the pattern name and the frame count |

## Left out

- Logging at the start and end of setup: a side effect with no bearing on the state setup builds.
- Checks the framework may make, which this model does not perform: `set_shape` rejecting non-positive extents, `add_pattern` rejecting a pattern that does not partition the axes or a name already registered, and `plugin_data_setup` rejecting an unregistered pattern name. The framework classes are not part of this model and their methods only record. What the model does show: `OutputsWellFormed` gives positive extents and partitioning patterns on both outputs, but only when the component count is positive (the source passes whatever value is configured); the name SPECTRUM is free when it is added only because `Dataset.Create` starts with an empty pattern map; `SetupPlan` shows that SPECTRUM is registered on the eigenvectors, and that the chunk is registered on the scores exactly when the input registers it.
- The inherited behaviour of the filter and CPU-plugin base classes, frame iteration, storage and the numeric work of concrete component-analysis plugins: not part of this model.
- `BaseComponentAnalysis.Setup`: requires the input and output datasets and the three plugin-data objects to be distinct objects, so aliasing between them is not modelled.
- `BaseComponentAnalysis.GetMaxFrames`: before setup the source has no `spectra_length` attribute and the call fails; the model returns the empty tuple the constructor stores, and its contract speaks only of the state after setup.
- Option values are typed by their documented defaults; a process list that supplies a value of another type is not modelled.
