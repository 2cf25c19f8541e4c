/**
 * The process-wide cache of `WordSegments`: the tokenizer, the classification
 * model and the inference pipeline, kept as class-level attributes together
 * with the configuration they were last built for, and rebuilt one by one
 * when a new construction asks for a different configuration.
 *
 * The three artifacts come from foreign loaders; here each is an abstract
 * value that records what it was built from and a serial number (how many
 * artifacts of its kind were built before it), so that a rebuild is visible
 * even when it is built from equal arguments. The three load counters stand
 * for call counters on the loaders.
 */
module ModelCache {
  import opened Wrappers

  /** The numeric precision passed as `torch_dtype`, an opaque comparable value. */
  type Dtype = string

  /** The `device` argument: `None` in the source (the default device) or a device name. */
  datatype Device = DefaultDevice | Named(name: string)

  /** The configuration one construction asks for. */
  datatype Config = Config(truncate: bool, maxLength: int, torchDtype: Dtype, device: Device)

  datatype Tokenizer = Tokenizer(serial: nat, truncate: bool, maxLength: int)
  datatype Model = Model(serial: nat, torchDtype: Dtype, maxLength: int)
  datatype Pipe = Pipe(serial: nat, model: Model, tokenizer: Tokenizer, device: Device)

  datatype Error = UnsupportedLanguage(lang: string)

  /** The only language `_load_model` accepts. */
  const SupportedLanguage: string := "vi"

  /**
   * The class-level attributes. An attribute that was never assigned
   * (`hasattr` is false) is `None`.
   */
  datatype CacheState = CacheState(
    tokenizer: Option<Tokenizer>, model: Option<Model>, pipe: Option<Pipe>,
    truncate: Option<bool>, maxLength: Option<int>, torchDtype: Option<Dtype>, device: Option<Device>,
    tokenizerLoads: nat, modelLoads: nat, pipeLoads: nat)

  /** The class before its first construction: no attribute is set and nothing was loaded. */
  const Initial: CacheState := CacheState(None, None, None, None, None, None, None, 0, 0, 0)

  // ---------------------------------------------------------------------------
  // The three reload decisions
  // ---------------------------------------------------------------------------

  /** `_needs_reload_tokenizer`: it receives `maxLength` and does not look at it. */
  predicate NeedsReloadTokenizer(s: CacheState, truncate: bool, maxLength: int) {
    s.tokenizer.None? || s.truncate.None? || s.truncate.value != truncate
  }

  /** `_needs_reload_model`. */
  predicate NeedsReloadModel(s: CacheState, torchDtype: Dtype, maxLength: int) {
    || s.model.None?
    || s.torchDtype.None? || s.torchDtype.value != torchDtype
    || s.maxLength.None? || s.maxLength.value != maxLength
  }

  /** `_needs_reload_pipe`. */
  predicate NeedsReloadPipe(s: CacheState, device: Device) {
    s.pipe.None? || s.device.None? || s.device.value != device
  }

  // ---------------------------------------------------------------------------
  // What a successful `_load_model` does to the attributes
  // ---------------------------------------------------------------------------

  /** The recorded configuration is the one `c` asks for. */
  predicate Records(s: CacheState, c: Config) {
    && s.truncate == Some(c.truncate)
    && s.maxLength == Some(c.maxLength)
    && s.torchDtype == Some(c.torchDtype)
    && s.device == Some(c.device)
  }

  /**
   * What every state that successful loads reach satisfies: each artifact was built
   * with the recorded value of its own parameters, the pipeline was built
   * from the current tokenizer and model, and every serial number was
   * handed out by its counter.
   */
  predicate Coherent(s: CacheState) {
    && (s.tokenizer.Some? ==>
          s.truncate == Some(s.tokenizer.value.truncate) && s.tokenizer.value.serial < s.tokenizerLoads)
    && (s.model.Some? ==>
          && s.torchDtype == Some(s.model.value.torchDtype) && s.maxLength == Some(s.model.value.maxLength)
          && s.model.value.serial < s.modelLoads)
    && (s.pipe.Some? ==>
          && s.tokenizer == Some(s.pipe.value.tokenizer) && s.model == Some(s.pipe.value.model)
          && s.device == Some(s.pipe.value.device) && s.pipe.value.serial < s.pipeLoads)
  }

  /**
   * The state after `_load_model` accepts `c`: the three decisions are taken
   * on `s` before anything changes, then the tokenizer, the model and the
   * pipeline are rebuilt in that order, the pipeline whenever any of the
   * three decisions says so.
   */
  function Loaded(s: CacheState, c: Config): (t: CacheState)
    ensures Records(t, c)
    ensures t.tokenizer.Some? && t.model.Some? && t.pipe.Some?
    ensures Coherent(s) ==> Coherent(t)
  {
    var reloadsTokenizer := NeedsReloadTokenizer(s, c.truncate, c.maxLength);
    var reloadsModel := NeedsReloadModel(s, c.torchDtype, c.maxLength);
    var reloadsPipe := NeedsReloadPipe(s, c.device);
    var s1 := TokenizerStep(s, c, reloadsTokenizer);
    var s2 := ModelStep(s1, c, reloadsModel);
    PipeStep(s2, c, reloadsPipe || reloadsTokenizer || reloadsModel)
  }

  /** The tokenizer block of `_load_model`, taken when `reload` holds. */
  function TokenizerStep(s: CacheState, c: Config, reload: bool): CacheState {
    if reload then
      s.(tokenizer := Some(Tokenizer(s.tokenizerLoads, c.truncate, c.maxLength)),
         tokenizerLoads := s.tokenizerLoads + 1,
         truncate := Some(c.truncate), maxLength := Some(c.maxLength))
    else s
  }

  /** The model block of `_load_model`, taken when `reload` holds. */
  function ModelStep(s: CacheState, c: Config, reload: bool): CacheState {
    if reload then
      s.(model := Some(Model(s.modelLoads, c.torchDtype, c.maxLength)),
         modelLoads := s.modelLoads + 1,
         torchDtype := Some(c.torchDtype), maxLength := Some(c.maxLength))
    else s
  }

  /** The pipeline block of `_load_model`, taken when `reload` holds; it needs both artifacts. */
  function PipeStep(s: CacheState, c: Config, reload: bool): CacheState
    requires reload ==> s.tokenizer.Some? && s.model.Some?
  {
    if reload then
      s.(pipe := Some(Pipe(s.pipeLoads, s.model.value, s.tokenizer.value, c.device)),
         pipeLoads := s.pipeLoads + 1,
         device := Some(c.device))
    else s
  }

  // ---------------------------------------------------------------------------
  // What the source promises about repeated constructions
  // ---------------------------------------------------------------------------

  /** The first construction builds each artifact once, from the requested configuration. */
  lemma FirstLoadBuildsEverything(c: Config)
    ensures var t := Loaded(Initial, c);
      && t.tokenizer == Some(Tokenizer(0, c.truncate, c.maxLength))
      && t.model == Some(Model(0, c.torchDtype, c.maxLength))
      && t.pipe == Some(Pipe(0, t.model.value, t.tokenizer.value, c.device))
      && t.tokenizerLoads == 1 && t.modelLoads == 1 && t.pipeLoads == 1
  {
  }

  /**
   * After a load the recorded configuration is the requested one, and the
   * pipeline runs the current tokenizer and model on the requested device.
   */
  lemma LoadedRecordsRequest(s: CacheState, c: Config)
    requires Coherent(s)
    ensures var t := Loaded(s, c);
      && t.truncate == Some(c.truncate) && t.maxLength == Some(c.maxLength)
      && t.torchDtype == Some(c.torchDtype) && t.device == Some(c.device)
      && t.pipe.value.tokenizer == t.tokenizer.value && t.pipe.value.model == t.model.value
      && t.pipe.value.device == c.device
  {
  }

  /** After a load for `c`, each decision for `c'` is taken exactly when a parameter it compares differs. */
  lemma ReloadDecisionsAfterLoad(s: CacheState, c: Config, c': Config)
    ensures var t := Loaded(s, c);
      && (NeedsReloadTokenizer(t, c'.truncate, c'.maxLength) <==> c'.truncate != c.truncate)
      && (NeedsReloadModel(t, c'.torchDtype, c'.maxLength) <==>
            c'.torchDtype != c.torchDtype || c'.maxLength != c.maxLength)
      && (NeedsReloadPipe(t, c'.device) <==> c'.device != c.device)
  {
  }

  /**
   * Selective invalidation: after a load for `c`, a load for `c'` rebuilds
   * the tokenizer exactly when `truncate` changes, the model exactly when
   * `torchDtype` or `maxLength` changes, and the pipeline exactly when
   * anything changes; a kept artifact is the very same value and its loader
   * is not called.
   */
  lemma SelectiveRebuild(s: CacheState, c: Config, c': Config)
    requires Coherent(s)
    ensures var t := Loaded(s, c); var u := Loaded(t, c');
      && (u.tokenizer == t.tokenizer <==> c'.truncate == c.truncate)
      && u.tokenizerLoads == t.tokenizerLoads + (if c'.truncate == c.truncate then 0 else 1)
      && (u.model == t.model <==> c'.torchDtype == c.torchDtype && c'.maxLength == c.maxLength)
      && u.modelLoads == t.modelLoads + (if c'.torchDtype == c.torchDtype && c'.maxLength == c.maxLength then 0 else 1)
      && (u.pipe == t.pipe <==> c' == c)
      && u.pipeLoads == t.pipeLoads + (if c' == c then 0 else 1)
  {
    var t := Loaded(s, c);
    ReloadDecisionsAfterLoad(s, c, c');
    assert Coherent(t);
  }

  /** A second construction with the same configuration rebuilds nothing and changes no attribute. */
  lemma RepeatLoadRebuildsNothing(s: CacheState, c: Config)
    ensures Loaded(Loaded(s, c), c) == Loaded(s, c)
  {
    ReloadDecisionsAfterLoad(s, c, c);
  }

  /** Changing only the device rebuilds the pipeline and keeps the tokenizer and the model. */
  lemma DeviceChangeRebuildsOnlyPipe(s: CacheState, c: Config, device: Device)
    requires Coherent(s) && device != c.device
    ensures var t := Loaded(s, c); var u := Loaded(t, c.(device := device));
      && u.tokenizer == t.tokenizer && u.model == t.model && u.pipe != t.pipe
      && u.tokenizerLoads == t.tokenizerLoads && u.modelLoads == t.modelLoads && u.pipeLoads == t.pipeLoads + 1
  {
    SelectiveRebuild(s, c, c.(device := device));
  }

  /** Changing only `maxLength` rebuilds the model and the pipeline but keeps the tokenizer. */
  lemma MaxLengthChangeKeepsTokenizer(s: CacheState, c: Config, maxLength: int)
    requires Coherent(s) && maxLength != c.maxLength
    ensures var t := Loaded(s, c); var u := Loaded(t, c.(maxLength := maxLength));
      && u.tokenizer == t.tokenizer && u.model != t.model && u.pipe != t.pipe
      && u.tokenizerLoads == t.tokenizerLoads && u.modelLoads == t.modelLoads + 1 && u.pipeLoads == t.pipeLoads + 1
  {
    SelectiveRebuild(s, c, c.(maxLength := maxLength));
  }

  /** Changing only `truncate` rebuilds the tokenizer and the pipeline but keeps the model. */
  lemma TruncateChangeKeepsModel(s: CacheState, c: Config, truncate: bool)
    requires Coherent(s) && truncate != c.truncate
    ensures var t := Loaded(s, c); var u := Loaded(t, c.(truncate := truncate));
      && u.tokenizer != t.tokenizer && u.model == t.model && u.pipe != t.pipe
      && u.tokenizerLoads == t.tokenizerLoads + 1 && u.modelLoads == t.modelLoads && u.pipeLoads == t.pipeLoads + 1
  {
    SelectiveRebuild(s, c, c.(truncate := truncate));
  }

  /** Changing only `torchDtype` rebuilds the model and the pipeline but keeps the tokenizer. */
  lemma DtypeChangeKeepsTokenizer(s: CacheState, c: Config, torchDtype: Dtype)
    requires Coherent(s) && torchDtype != c.torchDtype
    ensures var t := Loaded(s, c); var u := Loaded(t, c.(torchDtype := torchDtype));
      && u.tokenizer == t.tokenizer && u.model != t.model && u.pipe != t.pipe
      && u.tokenizerLoads == t.tokenizerLoads && u.modelLoads == t.modelLoads + 1 && u.pipeLoads == t.pipeLoads + 1
  {
    SelectiveRebuild(s, c, c.(torchDtype := torchDtype));
  }

  /**
   * Because the tokenizer decision ignores `maxLength`, a change of
   * `maxLength` alone leaves the pipeline running a tokenizer built for the
   * old length while the recorded `maxLength` is the new one.
   */
  lemma StaleTokenizerMaxLength(c: Config, maxLength: int)
    requires maxLength != c.maxLength
    ensures var u := Loaded(Loaded(Initial, c), c.(maxLength := maxLength));
      && u.maxLength == Some(maxLength)
      && u.pipe.value.tokenizer.maxLength == c.maxLength
      && u.pipe.value.model.maxLength == maxLength
  {
    FirstLoadBuildsEverything(c);
    MaxLengthChangeKeepsTokenizer(Initial, c, maxLength);
  }

  // ---------------------------------------------------------------------------
  // The class-level attributes, updated in place
  // ---------------------------------------------------------------------------

  /** The attributes `WordSegments` keeps on its class, shared by every construction. */
  class Cache {
    var tokenizer: Option<Tokenizer>
    var model: Option<Model>
    var pipe: Option<Pipe>
    var truncate: Option<bool>
    var maxLength: Option<int>
    var torchDtype: Option<Dtype>
    var device: Option<Device>
    var tokenizerLoads: nat
    var modelLoads: nat
    var pipeLoads: nat

    /** The attributes as one value. */
    function State(): CacheState
      reads this
    {
      CacheState(tokenizer, model, pipe, truncate, maxLength, torchDtype, device,
                 tokenizerLoads, modelLoads, pipeLoads)
    }

    predicate Valid()
      reads this
    {
      Coherent(State())
    }

    /** The class as it is before anything was constructed. */
    constructor ()
      ensures Valid() && State() == Initial
    {
      tokenizer, model, pipe := None, None, None;
      truncate, maxLength, torchDtype, device := None, None, None, None;
      tokenizerLoads, modelLoads, pipeLoads := 0, 0, 0;
    }

    /**
     * `_load_model`: refuses any language but Vietnamese before it looks at
     * the attributes; otherwise decides the three reloads on the current
     * attributes and then rebuilds, in order, the tokenizer, the model and
     * the pipeline.
     */
    method LoadModel(lang: string, device: Device, truncate: bool, maxLength: int, torchDtype: Dtype)
      returns (r: Outcome<Error>)
      requires Valid()
      modifies this
      ensures Valid()
      ensures lang != SupportedLanguage ==> r == Fail(UnsupportedLanguage(lang)) && unchanged(this)
      ensures lang == SupportedLanguage ==>
        && r == Pass
        && State() == Loaded(old(State()), Config(truncate, maxLength, torchDtype, device))
    {
      if lang != SupportedLanguage {
        return Fail(UnsupportedLanguage(lang));
      }
      var c := Config(truncate, maxLength, torchDtype, device);
      ghost var s := State();
      var reloadsTokenizer := NeedsReloadTokenizer(State(), truncate, maxLength);
      var reloadsModel := NeedsReloadModel(State(), torchDtype, maxLength);
      var reloadsPipe := NeedsReloadPipe(State(), device);

      if reloadsTokenizer {
        RebuildTokenizer(c);
      }
      ghost var s1 := State();
      assert s1 == TokenizerStep(s, c, reloadsTokenizer);
      if reloadsModel {
        RebuildModel(c);
      }
      ghost var s2 := State();
      assert s2 == ModelStep(s1, c, reloadsModel);
      if reloadsPipe || reloadsTokenizer || reloadsModel {
        RebuildPipe(c);
      }
      assert State() == PipeStep(s2, c, reloadsPipe || reloadsTokenizer || reloadsModel);
      assert State() == Loaded(s, c);
      assert Coherent(Loaded(s, c));
      return Pass;
    }

    /** The tokenizer block of `_load_model`: a fresh tokenizer, and the parameters it was built with. */
    method RebuildTokenizer(c: Config)
      modifies this
      ensures State() == TokenizerStep(old(State()), c, true)
    {
      tokenizer, tokenizerLoads := Some(Tokenizer(tokenizerLoads, c.truncate, c.maxLength)), tokenizerLoads + 1;
      truncate, maxLength := Some(c.truncate), Some(c.maxLength);
    }

    /** The model block of `_load_model`: a fresh model, and the parameters it was built with. */
    method RebuildModel(c: Config)
      modifies this
      ensures State() == ModelStep(old(State()), c, true)
    {
      model, modelLoads := Some(Model(modelLoads, c.torchDtype, c.maxLength)), modelLoads + 1;
      torchDtype, maxLength := Some(c.torchDtype), Some(c.maxLength);
    }

    /** The pipeline block of `_load_model`: a fresh pipeline over the current tokenizer and model. */
    method RebuildPipe(c: Config)
      requires tokenizer.Some? && model.Some?
      modifies this
      ensures State() == PipeStep(old(State()), c, true)
    {
      pipe, pipeLoads := Some(Pipe(pipeLoads, model.value, tokenizer.value, c.device)), pipeLoads + 1;
      device := Some(c.device);
    }
  }
}
