/** The tab-list action: a user action whose settings are a display mode and the
    side of its button, persisted as a JSON object and passed between processes as
    a two-int parcel record. */
module TabListAction {
  import opened Basics
  import opened JsonStream
  import opened Parcels

  const ModeNormal: int32 := 0
  const ModeReverse: int32 := 1
  const ModeHorizontal: int32 := 2

  /** The legacy boolean field that chose between the reverse and the normal mode. */
  const FieldReverse: string := "0"
  const FieldMode: string := "1"
  const FieldLeftButton: string := "2"

  const KnownNames: set<string> := {FieldReverse, FieldMode, FieldLeftButton}

  /** The two settings of an action. */
  datatype Settings = Settings(mode: int32, isLeftButton: bool)

  /** The settings of a new action, and of one read from a missing or non-object stream. */
  const Defaults: Settings := Settings(ModeHorizontal, false)

  /** One member of a JSON object: a field name and the token of its value. */
  datatype Entry = Entry(name: string, value: Token)

  /** From position `i` on, `ts` holds the rest of an object: pairs of a field name
      and a value, then the object's end. */
  predicate FieldsFrom(ts: seq<Token>, i: nat)
    decreases |ts| - i
  {
    i < |ts| &&
    (ts[i] == EndObject ||
     (ts[i].FieldName? && i + 1 < |ts| && ts[i + 1].IsValue() && FieldsFrom(ts, i + 2)))
  }

  /** The members of the rest of the object starting at `i`, in stream order. */
  function EntriesFrom(ts: seq<Token>, i: nat): seq<Entry>
    requires FieldsFrom(ts, i)
    decreases |ts| - i
  {
    if ts[i] == EndObject then [] else [Entry(ts[i].name, ts[i + 1])] + EntriesFrom(ts, i + 2)
  }

  /** The position just after the end of the object whose rest starts at `i`. */
  function EndFrom(ts: seq<Token>, i: nat): (k: nat)
    requires FieldsFrom(ts, i)
    ensures i < k <= |ts| && ts[k - 1] == EndObject
    ensures forall j :: i <= j < k - 1 ==> ts[j] != EndObject
    decreases |ts| - i
  {
    if ts[i] == EndObject then i + 1 else EndFrom(ts, i + 2)
  }

  /** The effect of one member on the settings read so far. */
  function Step(s: Settings, e: Entry): Result<Settings, JsonError> {
    if e.name == FieldReverse then
      if e.value == ValueTrue then Success(s.(mode := ModeReverse))
      else if e.value == ValueFalse then Success(s.(mode := ModeNormal))
      else Success(s)
    else if e.name == FieldMode then
      if e.value.IsNumeric() then
        match IntValue(e.value)
        case Success(n) => Success(s.(mode := n))
        case Failure(err) => Failure(err)
      else Success(s)
    else if e.name == FieldLeftButton then
      if e.value.IsBoolean() then Success(s.(isLeftButton := e.value == ValueTrue))
      else Success(s)
    else
      Success(s)
  }

  /** The members applied one after the other, in stream order. */
  function Apply(s: Settings, es: seq<Entry>): Result<Settings, JsonError>
    decreases |es|
  {
    if es == [] then Success(s)
    else
      match Step(s, es[0])
      case Success(t) => Apply(t, es[1..])
      case Failure(err) => Failure(err)
  }

  /** The stream handed to the JSON constructor: absent (a null parser), or the
      tokens it will report. When its first token opens an object, the object is
      complete. */
  predicate Readable(parser: Option<seq<Token>>) {
    parser.Some? && |parser.value| > 0 && parser.value[0] == StartObject ==>
      FieldsFrom(parser.value, 1)
  }

  predicate OpensObject(parser: Option<seq<Token>>) {
    parser.Some? && |parser.value| > 0 && parser.value[0] == StartObject
  }

  /** The settings the JSON constructor arrives at. */
  function Decode(parser: Option<seq<Token>>): Result<Settings, JsonError>
    requires Readable(parser)
  {
    if OpensObject(parser) then Apply(Defaults, EntriesFrom(parser.value, 1))
    else Success(Defaults)
  }

  /** How many tokens the JSON constructor takes from the stream. */
  function Consumed(parser: Option<seq<Token>>): nat
    requires Readable(parser)
  {
    if parser.None? || |parser.value| == 0 then 0
    else if parser.value[0] != StartObject then 1
    else EndFrom(parser.value, 1)
  }

  /** The object the JSON writer emits after the id. */
  function ObjectTokens(s: Settings): seq<Token> {
    [StartObject,
     FieldName(FieldMode), ValueNumberInt(s.mode as int),
     FieldName(FieldLeftButton), BooleanToken(s.isLeftButton),
     EndObject]
  }

  /** The parcel record of an action. */
  function Record(id: int32, s: Settings): seq<int32> {
    [id, s.mode]
  }

  /** The position the settings dialog shows in its button spinner. */
  function ButtonPosition(isLeftButton: bool): int32 {
    if isLeftButton then 1 else 0
  }

  class TabListSingleAction {
    const id: int32
    var mode: int32
    var isLeftButton: bool

    function State(): Settings
      reads this
    {
      Settings(mode, isLeftButton)
    }

    /** The base action's id and the initial values of both settings. */
    constructor (id: int32)
      ensures this.id == id && State() == Defaults
    {
      this.id := id;
      mode := ModeHorizontal;
      isLeftButton := false;
    }

    /** The JSON constructor. It raises an error, so it is a factory here: a number
        that does not fit an int under field "1" ends the read with a failure. */
    static method FromJson(id: int32, parser: Option<seq<Token>>)
      returns (r: Result<TabListSingleAction, JsonError>, next: nat)
      requires Readable(parser)
      ensures r.Success? <==> Decode(parser).Success?
      ensures r.Success? ==> r.value.id == id && r.value.State() == Decode(parser).value
      ensures r.Success? ==> next == Consumed(parser)
    {
      var a := new TabListSingleAction(id);
      if parser.None? || |parser.value| == 0 {
        return Success(a), 0;
      }
      var ts := parser.value;
      if ts[0] != StartObject {
        return Success(a), 1;
      }
      var i := 1;
      while ts[i] != EndObject
        invariant FieldsFrom(ts, i)
        invariant EndFrom(ts, i) == EndFrom(ts, 1)
        invariant a.id == id
        invariant Apply(a.State(), EntriesFrom(ts, i)) == Apply(Defaults, EntriesFrom(ts, 1))
        decreases |ts| - i
      {
        // ts[i] is a field name and ts[i + 1] its value. For an unknown name the
        // parser steps over the value (skipChildren passes a nested value whole).
        var name, value := ts[i].name, ts[i + 1];
        if name == FieldReverse {
          if value == ValueTrue {
            a.mode := ModeReverse;
          } else if value == ValueFalse {
            a.mode := ModeNormal;
          }
        } else if name == FieldMode {
          if value.IsNumeric() {
            var n := IntValue(value);
            if n.Failure? {
              return Failure(n.error), i + 2;
            }
            a.mode := n.value;
          }
        } else if name == FieldLeftButton {
          if value.IsBoolean() {
            a.isLeftButton := value == ValueTrue;
          }
        }
        i := i + 2;
      }
      return Success(a), i + 1;
    }

    /** Writes the id, then the settings as an object with fields "1" and "2". */
    method WriteIdAndData(g: Generator)
      modifies g
      ensures g.written == old(g.written) + [ValueNumberInt(id as int)] + ObjectTokens(State())
    {
      g.WriteNumber(id);
      g.WriteStartObject();
      g.WriteNumberField(FieldMode, mode);
      g.WriteBooleanField(FieldLeftButton, isLeftButton);
      g.WriteEndObject();
    }

    /** Writes the id and the mode, and nothing of the button side. */
    method WriteToParcel(dest: Parcel)
      requires dest.Valid()
      modifies dest
      ensures dest.Valid()
      ensures dest.data == Overwrite(old(dest.data), old(dest.position), Record(id, State()))
      ensures dest.position == old(dest.position) + 2
    {
      ghost var p := dest.position;
      dest.WriteInt(id);
      dest.WriteInt(mode);
      OverwriteTwice(old(dest.data), p, id, mode);
    }

    /** The parcel constructor: reads the id, then the mode; the button side keeps
        its initial value. */
    constructor FromParcel(source: Parcel)
      requires source.Valid()
      modifies source
      ensures source.Valid() && source.data == old(source.data)
      ensures id == IntAt(source.data, old(source.position))
      ensures mode == IntAt(source.data, After(source.data, old(source.position)))
      ensures !isLeftButton
      ensures source.position == After(source.data, After(source.data, old(source.position)))
    {
      var readId := source.ReadInt();
      id := readId;
      var readMode := source.ReadInt();
      mode := readMode;
      isLeftButton := false;
    }

    /** The settings dialog's OK button: the mode spinner's position becomes the
        mode, and any button spinner position past the first selects the left side. */
    method OnDialogOk(modeSelection: int32, buttonSelection: int32)
      modifies this
      ensures State() == Settings(modeSelection, buttonSelection > 0)
    {
      mode := modeSelection;
      isLeftButton := buttonSelection > 0;
    }
  }
}
