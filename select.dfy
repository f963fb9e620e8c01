/**
 * The select-menu component builder: a mutable object holding the menu's
 * attributes, fluent setters that each overwrite one of them, and a
 * read-only projection to the platform's wire payload.
 */
module Components {
  import opened Wrappers

  /** Component kinds of the platform, as far as this builder uses them. */
  datatype ComponentType = ActionRow | Button | Select

  /**
   * The wire payload of a component. An optional key that the payload does
   * not carry is `None`.
   */
  datatype Component<W> = Component(
    componentType: ComponentType,
    customId: string,
    options: W,
    placeholder: Option<string>,
    minValues: Option<int>,
    maxValues: Option<int>,
    disabled: Option<bool>)

  /**
   * The constructor's argument. `O` is the option list and `H` the handler
   * callback; both are opaque here.
   */
  datatype SelectArgs<O, H> = SelectArgs(
    handler: H,
    customID: string,
    min: Option<int>,
    max: Option<int>,
    options: O,
    placeholder: Option<string>,
    disabled: Option<bool>)

  // JavaScript truthiness of the attribute types: `undefined`, the empty
  // string, the number 0 and `false` are falsy.

  /** A string attribute is falsy exactly when it is `undefined` or empty. */
  predicate TruthyText(v: Option<string>): (truthy: bool)
    ensures !truthy <==> v == None || v == Some("")
  {
    match v
    case None => false
    case Some(s) => s != ""
  }

  /** A number attribute is falsy exactly when it is `undefined` or 0. */
  predicate TruthyCount(v: Option<int>): (truthy: bool)
    ensures !truthy <==> v == None || v == Some(0)
  {
    match v
    case None => false
    case Some(n) => n != 0
  }

  /** A boolean attribute is falsy exactly when it is `undefined` or `false`. */
  predicate TruthyFlag(v: Option<bool>): (truthy: bool)
    ensures !truthy <==> v == None || v == Some(false)
  {
    match v
    case None => false
    case Some(b) => b
  }

  /** An attribute when it is truthy, and absent otherwise. */
  function KeepIf<T>(truthy: bool, v: Option<T>): Option<T>
  {
    if truthy then v else None
  }

  class Select<O, H> {
    var options: O
    var customID: string
    var placeholder: Option<string>
    var min: Option<int>
    var max: Option<int>
    var disabled: Option<bool>
    var handler: H

    /** The whole state of the builder, in the shape of the constructor's argument. */
    function Attributes(): SelectArgs<O, H>
      reads this
    {
      SelectArgs(handler, customID, min, max, options, placeholder, disabled)
    }

    constructor (args: SelectArgs<O, H>)
      ensures Attributes() == args
      ensures Id() == args.customID
    {
      customID := args.customID;
      options := args.options;
      placeholder := args.placeholder;
      min := args.min;
      max := args.max;
      disabled := args.disabled;
      handler := args.handler;
    }

    /** The `id` getter: the custom ID, used to route incoming events. */
    function Id(): (id: string)
      reads this
      ensures id == Attributes().customID
    {
      customID
    }

    /** The `type` getter: the same kind whatever the builder's state, as it reads nothing. */
    function Type(): (t: ComponentType)
      ensures t.Select?
    {
      ComponentType.Select
    }

    method SetCustomID(customID: string) returns (self: Select<O, H>)
      modifies this
      ensures self == this
      ensures Attributes() == old(Attributes()).(customID := customID)
      ensures Id() == customID
    {
      this.customID := customID;
      self := this;
    }

    method SetPlaceholder(placeholder: Option<string>) returns (self: Select<O, H>)
      modifies this
      ensures self == this
      ensures Attributes() == old(Attributes()).(placeholder := placeholder)
    {
      this.placeholder := placeholder;
      self := this;
    }

    method SetMin(min: Option<int>) returns (self: Select<O, H>)
      modifies this
      ensures self == this
      ensures Attributes() == old(Attributes()).(min := min)
    {
      this.min := min;
      self := this;
    }

    method SetMax(max: Option<int>) returns (self: Select<O, H>)
      modifies this
      ensures self == this
      ensures Attributes() == old(Attributes()).(max := max)
    {
      this.max := max;
      self := this;
    }

    method SetDisabled(disabled: Option<bool>) returns (self: Select<O, H>)
      modifies this
      ensures self == this
      ensures Attributes() == old(Attributes()).(disabled := disabled)
    {
      this.disabled := disabled;
      self := this;
    }

    method SetHandler(handler: H) returns (self: Select<O, H>)
      modifies this
      ensures self == this
      ensures Attributes() == old(Attributes()).(handler := handler)
    {
      this.handler := handler;
      self := this;
    }

    /**
     * The wire payload. `serializeOptions` stands for the option list's own
     * serializer. As a function that only reads `this`, it leaves the
     * builder unchanged and gives equal payloads on every call.
     */
    function Serialize<W>(serializeOptions: O -> W): (payload: Component<W>)
      reads this
      ensures payload.componentType == ComponentType.Select
      ensures payload.customId == customID
      ensures payload.options == serializeOptions(options)
      ensures payload.placeholder.Some? <==> placeholder.Some? && placeholder.value != ""
      ensures payload.placeholder.Some? ==> payload.placeholder == placeholder
      ensures payload.minValues.Some? <==> min.Some? && min.value != 0
      ensures payload.minValues.Some? ==> payload.minValues == min
      ensures payload.maxValues.Some? <==> max.Some? && max.value != 0
      ensures payload.maxValues.Some? ==> payload.maxValues == max
      ensures payload.disabled.Some? <==> disabled == Some(true)
      ensures payload.disabled.Some? ==> payload.disabled == Some(true)
    {
      Component(
        ComponentType.Select,
        customID,
        serializeOptions(options),
        KeepIf(TruthyText(placeholder), placeholder),
        KeepIf(TruthyCount(min), min),
        KeepIf(TruthyCount(max), max),
        KeepIf(TruthyFlag(disabled), disabled))
    }
  }

  /** The `id` and `type` getters agree with the payload's `custom_id` and `type`. */
  lemma GettersAgreeWithPayload<O, H, W>(s: Select<O, H>, serializeOptions: O -> W)
    ensures s.Serialize(serializeOptions).customId == s.Id()
    ensures s.Serialize(serializeOptions).componentType == s.Type()
  {
  }

  /** Two optional attributes look the same on the wire: both falsy, or equal. */
  ghost predicate AlikeOnWire<T>(a: Option<T>, aTruthy: bool, b: Option<T>, bTruthy: bool)
  {
    aTruthy == bTruthy && (aTruthy ==> a == b)
  }

  /**
   * Exactly which differences between two builders the payload shows: the
   * custom ID, the serialized options, and the optional attributes only up
   * to truthiness. In particular `min = 0`, `max = 0`, `placeholder = ""`
   * and `disabled = false` serialize exactly like unset attributes, and the
   * handler never reaches the payload.
   */
  lemma SerializeSeesOnlyTruthyAttributes<O, H, W>(s: Select<O, H>, t: Select<O, H>, serializeOptions: O -> W)
    ensures s.Serialize(serializeOptions) == t.Serialize(serializeOptions)
        <==> && s.customID == t.customID
             && serializeOptions(s.options) == serializeOptions(t.options)
             && AlikeOnWire(s.placeholder, TruthyText(s.placeholder), t.placeholder, TruthyText(t.placeholder))
             && AlikeOnWire(s.min, TruthyCount(s.min), t.min, TruthyCount(t.min))
             && AlikeOnWire(s.max, TruthyCount(s.max), t.max, TruthyCount(t.max))
             && AlikeOnWire(s.disabled, TruthyFlag(s.disabled), t.disabled, TruthyFlag(t.disabled))
  {
  }

  /**
   * A chained configuration: every setter returns the builder itself, and a
   * minimum of 0, an empty placeholder and `disabled = false`, set through
   * the setters, do not reach the payload.
   */
  method FluentConfiguration() returns (payload: Component<seq<string>>)
    ensures payload == Component(ComponentType.Select, "pick-color", ["red", "blue"], None, None, Some(3), None)
  {
    var select := new Select<seq<string>, int>(SelectArgs(0, "pick", Some(1), None, ["red", "blue"], Some("Pick one"), Some(true)));
    var chained := select.SetCustomID("pick-color");
    chained := chained.SetPlaceholder(Some(""));
    chained := chained.SetHandler(7);
    chained := chained.SetMin(Some(0));
    chained := chained.SetMax(Some(3));
    chained := chained.SetDisabled(Some(false));
    assert chained == select;
    payload := select.Serialize(o => o);
  }
}
