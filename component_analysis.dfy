/** The setup step of the base component-analysis filter: from the shape of
    its one input dataset it derives the shapes of the "scores" and
    "eigenvectors" outputs, registers the SPECTRUM pattern on the
    eigenvectors, and binds each plugin-data side to a pattern and a frame
    count. */
module ComponentAnalysis {
  import opened Framework

  /** The plugin's options, with the types their documented defaults imply. */
  datatype Parameters = Parameters(
    inDatasets: seq<string>,
    outDatasets: seq<string>,
    numberOfComponents: int,
    chunk: string,
    whiten: int)

  /** The options a process list gets when it names none. */
  const DefaultParameters := Parameters([], ["scores", "eigenvectors"], 3, "SINOGRAM", 1)

  /** The documented defaults: the SINOGRAM chunk and three components. */
  lemma Defaults()
    ensures DefaultParameters.chunk == "SINOGRAM" && DefaultParameters.numberOfComponents == 3
    ensures DefaultParameters.inDatasets == [] && DefaultParameters.whiten == 1
  {
  }

  /** The pattern registered on the eigenvectors: iterate over components
      (axis 0), hold one spectrum (axis 1) in full. */
  const SpectrumName := "SPECTRUM"
  const SpectrumPattern := Pattern([1], [0])
  const EigenvectorLabels: seq<string> := ["idx.unit", "spectra.unit"]

  /** spectra_length: the one-element tuple holding the input's last extent. */
  function SpectraLength(inShape: seq<int>): (r: seq<int>)
    requires |inShape| > 0
    ensures |r| == 1 && r[0] == inShape[|inShape| - 1]
  {
    inShape[|inShape| - 1..]
  }

  /** images_shape, the scores' shape: the input shape with its last
      extent replaced by the component count. */
  function ImagesShape(inShape: seq<int>, numComps: int): (r: seq<int>)
    requires |inShape| > 0
    ensures |r| == |inShape|
    ensures forall i :: 0 <= i < |inShape| - 1 ==> r[i] == inShape[i]
    ensures r[|inShape| - 1] == numComps
  {
    inShape[..|inShape| - 1] + [numComps]
  }

  /** components_shape, the eigenvectors' shape: one row of spectrum length
      per component. */
  function ComponentsShape(inShape: seq<int>, numComps: int): (r: seq<int>)
    requires |inShape| > 0
    ensures |r| == 2 && r[0] == numComps && r[1] == inShape[|inShape| - 1]
  {
    [numComps] + SpectraLength(inShape)
  }

  /** The shape of a tensor product that contracts the last axis of a
      against the first axis of b. */
  function ContractShapes(a: seq<int>, b: seq<int>): (r: seq<int>)
    requires |a| > 0 && |b| > 0
    ensures |r| == |a| + |b| - 2
    ensures forall i :: 0 <= i < |a| - 1 ==> r[i] == a[i]
    ensures forall j :: 1 <= j < |b| ==> r[|a| - 2 + j] == b[j]
  {
    a[..|a| - 1] + b[1..]
  }

  /** Scores times eigenvectors gives back the input's shape: the scores'
      last axis and the eigenvectors' first axis both count components, and
      contracting them restores every input extent. So the two output shapes
      determine the input shape. */
  lemma ScoresTimesEigenvectorsShape(inShape: seq<int>, numComps: int)
    requires |inShape| > 0
    ensures ImagesShape(inShape, numComps)[|inShape| - 1] == ComponentsShape(inShape, numComps)[0]
    ensures ContractShapes(ImagesShape(inShape, numComps), ComponentsShape(inShape, numComps)) == inShape
  {
  }

  /** Everything setup hands to the framework, as values. */
  datatype Plan = Plan(
    spectraLength: seq<int>,
    imagesShape: seq<int>,
    scores: DatasetRecord,
    eigenvectors: DatasetRecord,
    inBinding: Binding,
    scoresBinding: Binding,
    eigenvectorsBinding: Binding)

  /** What setup produces from the input dataset and the options. */
  function SetupPlan(input: DatasetRecord, p: Parameters): (r: Plan)
    requires |input.shape| > 0
    // the scores keep the input's rank and extents except the last,
    // which becomes the component count
    ensures r.scores.shape == r.imagesShape
    ensures |r.scores.shape| == |input.shape|
    ensures forall i :: 0 <= i < |input.shape| - 1 ==> r.scores.shape[i] == input.shape[i]
    ensures r.scores.shape[|input.shape| - 1] == p.numberOfComponents
    // the template copy supplies the scores' labels and patterns
    ensures r.scores.axisLabels == input.axisLabels && r.scores.patterns == input.patterns
    // the eigenvectors are components by spectrum, with two labels
    ensures r.eigenvectors.shape == [p.numberOfComponents, input.shape[|input.shape| - 1]]
    ensures |r.eigenvectors.axisLabels| == |r.eigenvectors.shape| == 2
    ensures r.eigenvectors.axisLabels == EigenvectorLabels
    ensures r.eigenvectors.patterns.Keys == {SpectrumName}
    ensures r.eigenvectors.patterns[SpectrumName] == Pattern([1], [0])
    ensures PartitionsAxes(r.eigenvectors.patterns[SpectrumName], |r.eigenvectors.shape|)
    // input and scores share the chosen chunk, the eigenvectors use SPECTRUM
    ensures r.inBinding.patternName == r.scoresBinding.patternName == p.chunk
    ensures r.eigenvectorsBinding.patternName == SpectrumName
    ensures r.inBinding.maxFrames == r.spectraLength == [input.shape[|input.shape| - 1]]
    ensures r.scoresBinding.maxFrames == r.eigenvectorsBinding.maxFrames == [p.numberOfComponents]
    // each side's pattern is registered on its dataset when the chunk is on the input
    ensures r.eigenvectorsBinding.patternName in r.eigenvectors.patterns
    ensures r.scoresBinding.patternName in r.scores.patterns <==> p.chunk in input.patterns
  {
    var spectraLength := SpectraLength(input.shape);
    var numComps := [p.numberOfComponents];
    var imagesShape := ImagesShape(input.shape, p.numberOfComponents);
    var componentsShape := ComponentsShape(input.shape, p.numberOfComponents);
    Plan(
      spectraLength,
      imagesShape,
      DatasetRecord(imagesShape, input.axisLabels, input.patterns),
      DatasetRecord(componentsShape, EigenvectorLabels, map[SpectrumName := SpectrumPattern]),
      Binding(p.chunk, spectraLength),
      Binding(p.chunk, numComps),
      Binding(SpectrumName, numComps))
  }

  /** Setup keeps the dataset invariant: from a well-formed input and a
      positive component count it makes two well-formed outputs. */
  lemma OutputsWellFormed(input: DatasetRecord, p: Parameters)
    requires |input.shape| > 0 && WellFormed(input)
    requires p.numberOfComponents > 0
    ensures WellFormed(SetupPlan(input, p).scores)
    ensures WellFormed(SetupPlan(input, p).eigenvectors)
  {
  }

  /** The component-analysis plugin: its options, the two fields setup
      assigns, and the datasets and plugin-data objects the framework gives it. */
  class BaseComponentAnalysis {
    var parameters: Parameters
    var spectraLength: seq<int>
    var imagesShape: seq<int>
    var inDatasets: seq<Dataset>
    var outDatasets: seq<Dataset>
    var inPData: seq<PluginData>
    var outPData: seq<PluginData>

    constructor (params: Parameters, ins: seq<Dataset>, outs: seq<Dataset>,
                 inPlugin: seq<PluginData>, outPlugin: seq<PluginData>)
      ensures parameters == params && inDatasets == ins && outDatasets == outs
      ensures inPData == inPlugin && outPData == outPlugin
      ensures spectraLength == [] && imagesShape == []
    {
      parameters, inDatasets, outDatasets := params, ins, outs;
      inPData, outPData := inPlugin, outPlugin;
      spectraLength, imagesShape := [], [];
    }

    /** The plugin reads one dataset. */
    function NInputDatasets(): (n: nat)
      ensures n == 1
    {
      1
    }

    /** The plugin writes two datasets, one per default output name
        (scores, eigenvectors). */
    function NOutputDatasets(): (n: nat)
      ensures n == 2 && n == |DefaultParameters.outDatasets|
    {
      2
    }

    /** True once setup has run on the input as it now stands: the spectrum
        length is taken from the input's last extent, and the input and the
        scores are bound to the chunk option. */
    predicate IsSetUp()
      reads this, inDatasets, inPData, outPData
    {
      && |inDatasets| >= 1 && |inPData| >= 1 && |outPData| >= 1
      && |inDatasets[0].shape| > 0
      && spectraLength == SpectraLength(inDatasets[0].shape)
      && inPData[0].binding == Some(Binding(parameters.chunk, spectraLength))
      && outPData[0].binding == Some(Binding(parameters.chunk, [parameters.numberOfComponents]))
    }

    /** The frame count for the input side: once set up, the one-element
        tuple of the input's last extent, as the input's binding records. */
    function GetMaxFrames(): (frames: seq<int>)
      reads this, inDatasets, inPData, outPData
      ensures IsSetUp() ==> |frames| == 1 && frames[0] == inDatasets[0].shape[|inDatasets[0].shape| - 1]
      ensures IsSetUp() ==> inPData[0].binding == Some(Binding(parameters.chunk, frames))
    {
      spectraLength
    }

    /** The pattern the input and the scores are iterated with: the chunk
        option, and once set up the name both their bindings record. */
    function GetPluginPattern(): (name: string)
      reads this, inDatasets, inPData, outPData
      ensures name == parameters.chunk
      ensures IsSetUp() ==> inPData[0].binding.Some? && inPData[0].binding.value.patternName == name
      ensures IsSetUp() ==> outPData[0].binding.Some? && outPData[0].binding.value.patternName == name
    {
      parameters.chunk
    }

    /** The framework has supplied as many datasets and plugin-data objects
        as the plugin declares, all of them distinct. */
    predicate Wired()
      reads this
    {
      && |inDatasets| == |inPData| == NInputDatasets()
      && |outDatasets| == |outPData| == NOutputDatasets()
      && inDatasets[0] != outDatasets[0] && inDatasets[0] != outDatasets[1]
      && outDatasets[0] != outDatasets[1]
      && inPData[0] != outPData[0] && inPData[0] != outPData[1] && outPData[0] != outPData[1]
    }

    /** Derives the output shapes from the input's, creates both outputs,
        registers SPECTRUM on the eigenvectors and binds the three
        plugin-data sides, in that order. The new state is exactly the plan
        SetupPlan computes from the input dataset as it was before. */
    method Setup()
      requires Wired()
      requires |inDatasets[0].shape| > 0
      modifies this, outDatasets[0], outDatasets[1], inPData[0], outPData[0], outPData[1]
      ensures Wired() && IsSetUp()
      ensures GetMaxFrames() == [old(inDatasets[0].shape)[|old(inDatasets[0].shape)| - 1]]
      ensures GetPluginPattern() == parameters.chunk
      ensures parameters == old(parameters)
      ensures inDatasets == old(inDatasets) && outDatasets == old(outDatasets)
      ensures inPData == old(inPData) && outPData == old(outPData)
      // the template is left as it was
      ensures inDatasets[0].Record() == old(inDatasets[0].Record())
      ensures var plan := SetupPlan(old(inDatasets[0].Record()), parameters);
        && spectraLength == plan.spectraLength
        && imagesShape == plan.imagesShape
        && outDatasets[0].Record() == plan.scores
        && outDatasets[1].Record() == plan.eigenvectors
        && inPData[0].binding == Some(plan.inBinding)
        && outPData[0].binding == Some(plan.scoresBinding)
        && outPData[1].binding == Some(plan.eigenvectorsBinding)
    {
      var inDataset, outDataset := inDatasets, outDatasets;
      var inShape := inDataset[0].shape;
      spectraLength := SpectraLength(inShape);
      var numComps := [parameters.numberOfComponents];
      imagesShape := ImagesShape(inShape, parameters.numberOfComponents);
      var componentsShape := ComponentsShape(inShape, parameters.numberOfComponents);
      // copy the shape, labels and patterns of the input, then reshape
      outDataset[0].CreateFromTemplate(inDataset[0]);
      outDataset[0].SetShape(imagesShape);

      outDataset[1].Create(componentsShape, EigenvectorLabels);
      outDataset[1].AddPattern(SpectrumName, SpectrumPattern.coreDir, SpectrumPattern.sliceDir);
      var inPluginData, outPluginData := inPData, outPData;
      var pluginPattern := GetPluginPattern();
      inPluginData[0].PluginDataSetup(pluginPattern, GetMaxFrames());
      outPluginData[0].PluginDataSetup(pluginPattern, numComps);
      outPluginData[1].PluginDataSetup(SpectrumName, numComps);
    }
  }
}
