/**
 * The template humidifier entity: five attributes (on/off state, target and
 * current humidity, mode, action) recomputed from template renders, and four
 * controls that either hand off to a configured script or write the
 * requested value optimistically.
 *
 * The host's template engine, script engine and state publication are not
 * modelled: a render is an input `Result<Value, TemplateError>`, the entity
 * references of a template are an input set, running a script or publishing
 * the state is an `Effect` the control returns.
 */
module Humidifier {
  import opened Wrappers
  import opened TemplateValues

  /** The host's TemplateError, raised when a template cannot be rendered. */
  datatype TemplateError = TemplateError(message: string)

  /** The five optional templates of the configuration. */
  datatype Slot = TargetHumidity | CurrentHumidity | State | Mode | Action

  /** The four optional scripts of the configuration. */
  datatype Script = SetTargetHumidityScript | SetModeScript | TurnOnScript | TurnOffScript

  /** The feature flags the entity advertises (the empty set is "no features"). */
  datatype Feature = Modes

  /** An entity id such as "sensor.bathroom_humidity". */
  type EntityId = string

  /** The configuration after schema validation: which templates and scripts are present. */
  datatype Config = Config(
    name: string,
    uniqueId: Option<string>,
    minHumidity: real,
    maxHumidity: real,
    availableModes: seq<string>,
    templates: set<Slot>,
    scripts: set<Script>)

  /** The entity's observable attributes. */
  datatype Attributes = Attributes(
    state: bool,
    targetHumidity: Option<real>,
    currentHumidity: Option<real>,
    mode: Option<string>,
    action: Option<string>)

  /** What a control does outside the entity: run a script with variables, or publish the state. */
  datatype Effect = RunScript(script: Script, variables: map<string, Value>) | WriteState

  /** The attributes of a freshly constructed entity: off, everything else unset. */
  const Initial: Attributes := Attributes(false, None, None, None, None)

  /** The features advertised for a mode list: MODES exactly when the list is non-empty. */
  function SupportedFeatures(availableModes: seq<string>): (features: set<Feature>)
    ensures Modes in features <==> availableModes != []
  {
    if availableModes != [] then {Modes} else {}
  }

  // ---------------------------------------------------------------------
  // Refreshing the attributes from the template renders
  // ---------------------------------------------------------------------

  /** The state after its step: coerced to on/off when configured and rendered, else kept. */
  function StateAfter(configured: bool, render: Result<Value, TemplateError>, previous: bool): bool {
    if configured && render.Success? then IsOn(render.value) else previous
  }

  /**
   * A humidity after its step, with every failure of `float()` caught: the
   * converted number when configured, rendered and numeric, else the previous value.
   */
  function HumidityAfter(configured: bool, render: Result<Value, TemplateError>,
                         parse: string -> Option<real>, previous: Option<real>): Option<real>
  {
    if configured && render.Success? && ToFloat(render.value, parse).Converted? then
      Some(ToFloat(render.value, parse).x)
    else previous
  }

  /** The mode after its step: the rendered text with surrounding white space stripped. */
  function ModeAfter(configured: bool, render: Result<Value, TemplateError>, previous: Option<string>): Option<string> {
    if configured && render.Success? then Some(Strip(PyStr(render.value))) else previous
  }

  /** The action after its step: the rendered text as it is. */
  function ActionAfter(configured: bool, render: Result<Value, TemplateError>, previous: Option<string>): Option<string> {
    if configured && render.Success? then Some(PyStr(render.value)) else previous
  }

  /** One refresh, each attribute updated in its own error-isolated step. */
  function Refresh(cfg: Config, a: Attributes, render: Slot -> Result<Value, TemplateError>,
                   parse: string -> Option<real>): (r: Attributes)
    ensures State !in cfg.templates ==> r.state == a.state
    ensures TargetHumidity !in cfg.templates ==> r.targetHumidity == a.targetHumidity
    ensures CurrentHumidity !in cfg.templates ==> r.currentHumidity == a.currentHumidity
    ensures Mode !in cfg.templates ==> r.mode == a.mode
    ensures Action !in cfg.templates ==> r.action == a.action
  {
    Attributes(
      StateAfter(State in cfg.templates, render(State), a.state),
      HumidityAfter(TargetHumidity in cfg.templates, render(TargetHumidity), parse, a.targetHumidity),
      HumidityAfter(CurrentHumidity in cfg.templates, render(CurrentHumidity), parse, a.currentHumidity),
      ModeAfter(Mode in cfg.templates, render(Mode), a.mode),
      ActionAfter(Action in cfg.templates, render(Action), a.action))
  }

  /** The value of one attribute, so that statements can range over the five of them. */
  datatype Field = OnOff(on: bool) | Number(number: Option<real>) | Text(text: Option<string>)

  function FieldOf(a: Attributes, slot: Slot): Field {
    match slot
    case State => OnOff(a.state)
    case TargetHumidity => Number(a.targetHumidity)
    case CurrentHumidity => Number(a.currentHumidity)
    case Mode => Text(a.mode)
    case Action => Text(a.action)
  }

  /**
   * An attribute whose template is not configured, or whose render raised
   * TemplateError, keeps its previous value.
   */
  lemma RefreshKeepsFailed(cfg: Config, a: Attributes, render: Slot -> Result<Value, TemplateError>,
                           parse: string -> Option<real>, slot: Slot)
    requires slot !in cfg.templates || render(slot).Failure?
    ensures FieldOf(Refresh(cfg, a, render, parse), slot) == FieldOf(a, slot)
  {
  }

  /** A humidity render that `float()` rejects (ValueError or TypeError) keeps the stored humidity. */
  lemma RefreshKeepsNonNumeric(cfg: Config, a: Attributes, render: Slot -> Result<Value, TemplateError>,
                               parse: string -> Option<real>, slot: Slot)
    requires slot == TargetHumidity || slot == CurrentHumidity
    requires render(slot).Success? && !ToFloat(render(slot).value, parse).Converted?
    ensures FieldOf(Refresh(cfg, a, render, parse), slot) == FieldOf(a, slot)
  {
  }

  /**
   * A configured template that renders sets its attribute from the render
   * alone: the state by the on/off coercion, a humidity by `float()`, the mode
   * as the stripped text, the action as the unstripped text.
   */
  lemma RefreshApplies(cfg: Config, a: Attributes, render: Slot -> Result<Value, TemplateError>,
                       parse: string -> Option<real>, slot: Slot)
    requires slot in cfg.templates && render(slot).Success?
    ensures var r := Refresh(cfg, a, render, parse); var v := render(slot).value;
      match slot
      case State => r.state == OnByKind(v)
      case TargetHumidity =>
        r.targetHumidity == if ToFloat(v, parse).Converted? then Some(ToFloat(v, parse).x) else a.targetHumidity
      case CurrentHumidity =>
        r.currentHumidity == if ToFloat(v, parse).Converted? then Some(ToFloat(v, parse).x) else a.currentHumidity
      case Mode => r.mode == Some(Strip(PyStr(v)))
      case Action => r.action == Some(PyStr(v))
  {
    if slot == State {
      IsOnMatchesKind(render(slot).value);
    }
  }

  /**
   * Each attribute depends only on its own previous value and its own
   * render: whatever another template does, failing included, cannot change it.
   */
  lemma RefreshIsolated(cfg: Config, a1: Attributes, a2: Attributes,
                        render1: Slot -> Result<Value, TemplateError>, render2: Slot -> Result<Value, TemplateError>,
                        parse: string -> Option<real>, slot: Slot)
    requires FieldOf(a1, slot) == FieldOf(a2, slot) && render1(slot) == render2(slot)
    ensures FieldOf(Refresh(cfg, a1, render1, parse), slot) == FieldOf(Refresh(cfg, a2, render2, parse), slot)
  {
  }

  /** Rendering the same results twice changes nothing the second time. */
  lemma RefreshIdempotent(cfg: Config, a: Attributes, render: Slot -> Result<Value, TemplateError>,
                          parse: string -> Option<real>)
    ensures Refresh(cfg, Refresh(cfg, a, render, parse), render, parse) == Refresh(cfg, a, render, parse)
  {
  }

  // ---------------------------------------------------------------------
  // The refresh as written: TypeError from float() is not caught
  // ---------------------------------------------------------------------

  /** The result of the refresh as written: the attributes, and whether a TypeError escaped. */
  datatype Refreshed = Refreshed(attributes: Attributes, escaped: bool)

  /**
   * A humidity step as written: only TemplateError and ValueError are caught,
   * so a render that `float()` rejects with TypeError (None, a list) raises
   * out of the refresh (`None`); otherwise the new humidity.
   */
  function HumidityAfterAsWritten(configured: bool, render: Result<Value, TemplateError>,
                                  parse: string -> Option<real>, previous: Option<real>): (r: Option<Option<real>>)
    ensures r.None? <==> configured && render.Success? && ToFloat(render.value, parse).TypeError?
    ensures r.Some? ==> r.value == HumidityAfter(configured, render, parse, previous)
  {
    if configured && render.Success? then
      match ToFloat(render.value, parse)
      case Converted(x) => Some(Some(x))
      case ValueError => Some(previous)
      case TypeError => None
    else Some(previous)
  }

  /**
   * The five steps in the order of the source; an escaping TypeError ends the
   * refresh, keeping what the earlier steps wrote and skipping the later ones.
   */
  function RefreshAsWritten(cfg: Config, a: Attributes, render: Slot -> Result<Value, TemplateError>,
                            parse: string -> Option<real>): (r: Refreshed)
    ensures r.escaped <==>
      || (TargetHumidity in cfg.templates && render(TargetHumidity).Success?
          && ToFloat(render(TargetHumidity).value, parse).TypeError?)
      || (CurrentHumidity in cfg.templates && render(CurrentHumidity).Success?
          && ToFloat(render(CurrentHumidity).value, parse).TypeError?)
    ensures r.attributes.state == Refresh(cfg, a, render, parse).state
    ensures r.attributes.targetHumidity == Refresh(cfg, a, render, parse).targetHumidity
    ensures r.escaped ==> r.attributes.currentHumidity == a.currentHumidity
    ensures r.escaped ==> r.attributes.mode == a.mode && r.attributes.action == a.action
  {
    var state := StateAfter(State in cfg.templates, render(State), a.state);
    match HumidityAfterAsWritten(TargetHumidity in cfg.templates, render(TargetHumidity), parse, a.targetHumidity)
    case None => Refreshed(a.(state := state), true)
    case Some(target) =>
      match HumidityAfterAsWritten(CurrentHumidity in cfg.templates, render(CurrentHumidity), parse, a.currentHumidity)
      case None => Refreshed(a.(state := state, targetHumidity := target), true)
      case Some(current) =>
        Refreshed(Attributes(state, target, current,
                             ModeAfter(Mode in cfg.templates, render(Mode), a.mode),
                             ActionAfter(Action in cfg.templates, render(Action), a.action)), false)
  }

  /** When no TypeError escapes, the refresh as written and the isolated refresh agree. */
  lemma AsWrittenAgreesWithoutTypeError(cfg: Config, a: Attributes, render: Slot -> Result<Value, TemplateError>,
                                        parse: string -> Option<real>)
    ensures !RefreshAsWritten(cfg, a, render, parse).escaped ==>
      RefreshAsWritten(cfg, a, render, parse).attributes == Refresh(cfg, a, render, parse)
  {
  }

  /**
   * A target humidity template that renders None (say, an attribute of a
   * sensor that is missing) makes the refresh as written raise before the mode
   * step, so the mode "eco" the mode template rendered is lost; the isolated
   * refresh applies it.
   */
  lemma TypeErrorSkipsLaterFields(cfg: Config, render: Slot -> Result<Value, TemplateError>,
                                  parse: string -> Option<real>)
    requires cfg.templates == {TargetHumidity, Mode}
    requires render(TargetHumidity) == Success(VNone) && render(Mode) == Success(VStr("eco"))
    ensures RefreshAsWritten(cfg, Initial, render, parse) == Refreshed(Initial, true)
    ensures Refresh(cfg, Initial, render, parse) == Initial.(mode := Some("eco"))
  {
    assert State !in cfg.templates && CurrentHumidity !in cfg.templates && Action !in cfg.templates;
    assert ToFloat(VNone, parse) == TypeError;
    assert HumidityAfterAsWritten(true, render(TargetHumidity), parse, None).None?;
    assert TrimStart("eco") == "eco";
    assert TrimEnd("eco") == "eco";
    assert ModeAfter(true, render(Mode), None) == Some("eco");
  }

  // ---------------------------------------------------------------------
  // Tracked entities
  // ---------------------------------------------------------------------

  /** The order in which the templates are inspected. */
  const SlotOrder: seq<Slot> := [TargetHumidity, CurrentHumidity, State, Mode, Action]

  /** The entity ids one template contributes: those of a configured template whose info rendered. */
  function Contribution(templates: set<Slot>, info: Slot -> Result<set<EntityId>, TemplateError>, slot: Slot): set<EntityId> {
    if slot in templates && info(slot).Success? then info(slot).value else {}
  }

  /** No entity id occurs twice. */
  predicate Distinct(ids: seq<EntityId>) {
    forall j, k :: 0 <= j < k < |ids| ==> ids[j] != ids[k]
  }

  // ---------------------------------------------------------------------
  // The entity
  // ---------------------------------------------------------------------

  class TemplateHumidifier {
    const config: Config
    const supportedFeatures: set<Feature>

    var state: bool
    var targetHumidity: Option<real>
    var currentHumidity: Option<real>
    var mode: Option<string>
    var action: Option<string>

    /** The current attributes. */
    function Attrs(): Attributes
      reads this
    {
      Attributes(state, targetHumidity, currentHumidity, mode, action)
    }

    /** A new entity is off with every other attribute unset; it supports MODES iff it has modes. */
    constructor (cfg: Config)
      ensures config == cfg
      ensures Attrs() == Initial
      ensures Modes in supportedFeatures <==> cfg.availableModes != []
      ensures supportedFeatures <= {Modes}
    {
      config := cfg;
      targetHumidity := None;
      currentHumidity := None;
      mode := None;
      action := None;
      state := false;
      supportedFeatures := SupportedFeatures(cfg.availableModes);
    }

    /** Recompute every attribute from the renders, each step on its own. */
    method UpdateState(render: Slot -> Result<Value, TemplateError>, parse: string -> Option<real>)
      modifies this
      ensures Attrs() == Refresh(config, old(Attrs()), render, parse)
    {
      RefreshState(render(State));
      RefreshTargetHumidity(render(TargetHumidity), parse);
      RefreshCurrentHumidity(render(CurrentHumidity), parse);
      RefreshMode(render(Mode));
      RefreshAction(render(Action));
    }

    /** The state step: an on/off coercion of the render, if configured and rendered. */
    method RefreshState(render: Result<Value, TemplateError>)
      modifies this`state
      ensures state == StateAfter(State in config.templates, render, old(state))
    {
      if State in config.templates {
        match render
        case Success(v) => state := IsOn(v);
        case Failure(_) =>
      }
    }

    /** The target humidity step: `float()` of the render, if configured, rendered and numeric. */
    method RefreshTargetHumidity(render: Result<Value, TemplateError>, parse: string -> Option<real>)
      modifies this`targetHumidity
      ensures targetHumidity == HumidityAfter(TargetHumidity in config.templates, render, parse, old(targetHumidity))
    {
      if TargetHumidity in config.templates {
        match render
        case Success(v) =>
          var number := ToFloat(v, parse);
          if number.Converted? {
            targetHumidity := Some(number.x);
          }
        case Failure(_) =>
      }
    }

    /** The current humidity step: `float()` of the render, if configured, rendered and numeric. */
    method RefreshCurrentHumidity(render: Result<Value, TemplateError>, parse: string -> Option<real>)
      modifies this`currentHumidity
      ensures currentHumidity == HumidityAfter(CurrentHumidity in config.templates, render, parse, old(currentHumidity))
    {
      if CurrentHumidity in config.templates {
        match render
        case Success(v) =>
          var number := ToFloat(v, parse);
          if number.Converted? {
            currentHumidity := Some(number.x);
          }
        case Failure(_) =>
      }
    }

    /** The mode step: the stripped text of the render, if configured and rendered. */
    method RefreshMode(render: Result<Value, TemplateError>)
      modifies this`mode
      ensures mode == ModeAfter(Mode in config.templates, render, old(mode))
    {
      if Mode in config.templates {
        match render
        case Success(v) => mode := Some(Strip(PyStr(v)));
        case Failure(_) =>
      }
    }

    /** The action step: the text of the render, if configured and rendered. */
    method RefreshAction(render: Result<Value, TemplateError>)
      modifies this`action
      ensures action == ActionAfter(Action in config.templates, render, old(action))
    {
      if Action in config.templates {
        match render
        case Success(v) => action := Some(PyStr(v));
        case Failure(_) =>
      }
    }

    /**
     * The entity ids every configured template references, each once; a
     * template whose info fails to render contributes nothing.
     */
    method TemplateEntities(info: Slot -> Result<set<EntityId>, TemplateError>) returns (ids: seq<EntityId>)
      ensures Distinct(ids)
      ensures forall e :: e in ids <==> exists slot :: e in Contribution(config.templates, info, slot)
    {
      var entities: set<EntityId> := {};
      for i := 0 to |SlotOrder|
        invariant forall e :: e in entities <==> exists k :: 0 <= k < i && e in Contribution(config.templates, info, SlotOrder[k])
      {
        var slot := SlotOrder[i];
        if slot in config.templates {
          match info(slot)
          case Success(refs) => entities := entities + refs;
          case Failure(_) =>
        }
      }
      forall e, slot | e in Contribution(config.templates, info, slot) ensures e in entities {
        assert slot == SlotOrder[0] || slot == SlotOrder[1] || slot == SlotOrder[2]
            || slot == SlotOrder[3] || slot == SlotOrder[4];
      }
      ids := [];
      var rest := entities;
      while rest != {}
        invariant rest <= entities
        invariant Distinct(ids)
        invariant forall e :: e in entities <==> e in rest || e in ids
        invariant forall e :: e in rest ==> e !in ids
        decreases rest
      {
        var e :| e in rest;
        ids := ids + [e];
        rest := rest - {e};
      }
    }

    /** Set the target humidity: through its script, or by storing exactly the value asked for. */
    method SetHumidity(humidity: int) returns (effect: Effect)
      modifies this
      ensures SetTargetHumidityScript in config.scripts ==>
        effect == RunScript(SetTargetHumidityScript, map["humidity" := VInt(humidity)]) && Attrs() == old(Attrs())
      ensures SetTargetHumidityScript !in config.scripts ==>
        effect == WriteState && Attrs() == old(Attrs()).(targetHumidity := Some(humidity as real))
    {
      if SetTargetHumidityScript in config.scripts {
        effect := RunScript(SetTargetHumidityScript, map["humidity" := VInt(humidity)]);
      } else {
        targetHumidity := Some(humidity as real);
        effect := WriteState;
      }
    }

    /** Set the mode: through its script, or by storing exactly the mode asked for. */
    method SetMode(newMode: string) returns (effect: Effect)
      modifies this
      ensures SetModeScript in config.scripts ==>
        effect == RunScript(SetModeScript, map["mode" := VStr(newMode)]) && Attrs() == old(Attrs())
      ensures SetModeScript !in config.scripts ==>
        effect == WriteState && Attrs() == old(Attrs()).(mode := Some(newMode))
    {
      if SetModeScript in config.scripts {
        effect := RunScript(SetModeScript, map["mode" := VStr(newMode)]);
      } else {
        mode := Some(newMode);
        effect := WriteState;
      }
    }

    /** Turn on: through its script, or by setting the state on. */
    method TurnOn() returns (effect: Effect)
      modifies this
      ensures TurnOnScript in config.scripts ==>
        effect == RunScript(TurnOnScript, map[]) && Attrs() == old(Attrs())
      ensures TurnOnScript !in config.scripts ==>
        effect == WriteState && Attrs() == old(Attrs()).(state := true)
    {
      if TurnOnScript in config.scripts {
        effect := RunScript(TurnOnScript, map[]);
      } else {
        state := true;
        effect := WriteState;
      }
    }

    /** Turn off: through its script, or by setting the state off. */
    method TurnOff() returns (effect: Effect)
      modifies this
      ensures TurnOffScript in config.scripts ==>
        effect == RunScript(TurnOffScript, map[]) && Attrs() == old(Attrs())
      ensures TurnOffScript !in config.scripts ==>
        effect == WriteState && Attrs() == old(Attrs()).(state := false)
    {
      if TurnOffScript in config.scripts {
        effect := RunScript(TurnOffScript, map[]);
      } else {
        state := false;
        effect := WriteState;
      }
    }
  }
}
