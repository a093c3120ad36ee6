/** What the two codecs of the tab-list action promise: how the JSON reader combines
    the members of an object, and what survives a write followed by a read. */
module TabListProperties {
  import opened Basics
  import opened JsonStream
  import opened Parcels
  import opened TabListAction

  /** Reading the rest of a stream after some members have been applied. */
  function Then(r: Result<Settings, JsonError>, es: seq<Entry>): Result<Settings, JsonError> {
    match r
    case Success(s) => Apply(s, es)
    case Failure(err) => Failure(err)
  }

  lemma {:induction false} ApplyAppend(s: Settings, a: seq<Entry>, b: seq<Entry>)
    ensures Apply(s, a + b) == Then(Apply(s, a), b)
    decreases |a|
  {
    if a == [] {
      assert a + b == b;
    } else {
      assert (a + b)[0] == a[0];
      assert (a + b)[1..] == a[1..] + b;
      match Step(s, a[0])
      case Success(t) => ApplyAppend(t, a[1..], b);
      case Failure(_) =>
    }
  }

  // An independent description of the reader: each member may write the mode,
  // may write the button side, or may be rejected; the result is the last write.

  /** The mode a member writes, if it writes one. */
  function ModeWrittenBy(e: Entry): Option<int32> {
    if e.name == FieldReverse && e.value.IsBoolean() then
      Some(if e.value == ValueTrue then ModeReverse else ModeNormal)
    else if e.name == FieldMode && e.value.IsNumeric() && IntValue(e.value).Success? then
      Some(IntValue(e.value).value)
    else None
  }

  /** The button side a member writes, if it writes one. */
  function ButtonWrittenBy(e: Entry): Option<bool> {
    if e.name == FieldLeftButton && e.value.IsBoolean() then Some(e.value == ValueTrue) else None
  }

  /** A member the reader raises an error on. */
  predicate Rejects(e: Entry) {
    e.name == FieldMode && e.value.IsNumeric() && IntValue(e.value).Failure?
  }

  /** The mode written by the last member that writes one, or `initial`. */
  function LastMode(initial: int32, es: seq<Entry>): int32
    decreases |es|
  {
    if es == [] then initial
    else match ModeWrittenBy(es[|es| - 1])
      case Some(m) => m
      case None => LastMode(initial, es[..|es| - 1])
  }

  /** The button side written by the last member that writes one, or `initial`. */
  function LastButton(initial: bool, es: seq<Entry>): bool
    decreases |es|
  {
    if es == [] then initial
    else match ButtonWrittenBy(es[|es| - 1])
      case Some(b) => b
      case None => LastButton(initial, es[..|es| - 1])
  }

  lemma StepWrites(s: Settings, e: Entry)
    ensures Step(s, e).Success? <==> !Rejects(e)
    ensures Step(s, e).Success? ==>
      Step(s, e).value == Settings(ModeWrittenBy(e).GetOr(s.mode), ButtonWrittenBy(e).GetOr(s.isLeftButton))
  {
  }

  lemma ApplySingle(s: Settings, e: Entry)
    ensures Apply(s, [e]) == Step(s, e)
  {
    assert [e][1..] == [];
  }

  /** No member of `init + [last]` is rejected exactly when none of `init` is and
      `last` is not. */
  lemma NoneRejectedSnoc(init: seq<Entry>, last: Entry)
    ensures (forall k :: 0 <= k < |init + [last]| ==> !Rejects((init + [last])[k])) <==>
            (forall k :: 0 <= k < |init| ==> !Rejects(init[k])) && !Rejects(last)
  {
    var es := init + [last];
    assert es[|init|] == last;
    assert forall k :: 0 <= k < |init| ==> es[k] == init[k];
  }

  /** The members are applied in stream order and a later write overwrites an
      earlier one; the read fails exactly when some member is rejected. */
  lemma {:induction false} ApplyIsLastWrite(s: Settings, es: seq<Entry>)
    ensures Apply(s, es).Success? <==> forall k :: 0 <= k < |es| ==> !Rejects(es[k])
    ensures Apply(s, es).Success? ==>
      Apply(s, es).value == Settings(LastMode(s.mode, es), LastButton(s.isLeftButton, es))
    decreases |es|
  {
    if es != [] {
      var init, last := es[..|es| - 1], es[|es| - 1];
      assert es == init + [last];
      ApplyIsLastWrite(s, init);
      ApplyAppend(s, init, [last]);
      NoneRejectedSnoc(init, last);
      match Apply(s, init)
      case Success(t) =>
        ApplySingle(t, last);
        StepWrites(t, last);
      case Failure(_) =>
    }
  }

  /** Members with unknown names, nested values included, change nothing. */
  lemma {:induction false} UnknownFieldsIgnored(s: Settings, es: seq<Entry>)
    requires forall e :: e in es ==> e.name !in KnownNames
    ensures Apply(s, es) == Success(s)
    decreases |es|
  {
    if es != [] {
      assert es[0] in es;
      assert forall e :: e in es[1..] ==> e in es;
      UnknownFieldsIgnored(s, es[1..]);
    }
  }

  /** The legacy field "0" with a boolean reads as field "1" with REVERSE for true
      and NORMAL for false, wherever it stands in the object. */
  lemma LegacyFieldAsMode(s: Settings, before: seq<Entry>, after: seq<Entry>, reverse: bool)
    ensures
      var legacy := Entry(FieldReverse, BooleanToken(reverse));
      var numeric := Entry(FieldMode, ValueNumberInt(if reverse then 1 else 0));
      Apply(s, before + [legacy] + after) == Apply(s, before + [numeric] + after)
  {
    var legacy := Entry(FieldReverse, BooleanToken(reverse));
    var numeric := Entry(FieldMode, ValueNumberInt(if reverse then 1 else 0));
    ApplyAppend(s, before + [legacy], after);
    ApplyAppend(s, before + [numeric], after);
    ApplyAppend(s, before, [legacy]);
    ApplyAppend(s, before, [numeric]);
    match Apply(s, before)
    case Success(t) =>
      assert [legacy][1..] == [] && [numeric][1..] == [];
      assert Step(t, legacy) == Step(t, numeric);
    case Failure(_) =>
  }

  /** With a null parser, an empty stream, a stream that does not start an object,
      or an object with no known field, the action keeps its initial settings. */
  lemma DefaultsWithoutKnownFields(parser: Option<seq<Token>>)
    requires Readable(parser)
    requires OpensObject(parser) ==>
      forall e :: e in EntriesFrom(parser.value, 1) ==> e.name !in KnownNames
    ensures Decode(parser) == Success(Settings(ModeHorizontal, false))
  {
    if OpensObject(parser) {
      UnknownFieldsIgnored(Defaults, EntriesFrom(parser.value, 1));
    }
  }

  const LegacyThenMode: seq<Token> :=
    [StartObject, FieldName("0"), ValueTrue, FieldName("1"), ValueNumberInt(0), EndObject]
  const ModeThenLegacy: seq<Token> :=
    [StartObject, FieldName("1"), ValueNumberInt(0), FieldName("0"), ValueTrue, EndObject]

  /** Of the legacy and the numeric field, the one read last decides the mode. */
  lemma LaterFieldWins()
    ensures Readable(Some(LegacyThenMode)) && Decode(Some(LegacyThenMode)) == Success(Settings(ModeNormal, false))
    ensures Readable(Some(ModeThenLegacy)) && Decode(Some(ModeThenLegacy)) == Success(Settings(ModeReverse, false))
  {
  }

  const ModeSeven: seq<Token> := [StartObject, FieldName("1"), ValueNumberInt(7), EndObject]
  const ModeTooLarge: seq<Token> := [StartObject, FieldName("1"), ValueNumberInt(0x8000_0000), EndObject]

  /** Field "1" is taken as it is, with no check against the three known modes;
      only a number that does not fit an int makes the read fail. */
  lemma ModeNotRangeChecked()
    ensures Readable(Some(ModeSeven)) && Decode(Some(ModeSeven)) == Success(Settings(7, false))
    ensures 7 !in {ModeNormal, ModeReverse, ModeHorizontal}
    ensures Readable(Some(ModeTooLarge)) && Decode(Some(ModeTooLarge)).Failure?
  {
  }

  /** Reading back the object the writer emits gives the same settings and takes
      exactly that object from the stream. */
  lemma ObjectRoundTrip(s: Settings, rest: seq<Token>)
    ensures
      var ts := ObjectTokens(s) + rest;
      Readable(Some(ts)) && Decode(Some(ts)) == Success(s) && Consumed(Some(ts)) == |ObjectTokens(s)|
  {
    var ts := ObjectTokens(s) + rest;
    var mode, button := Entry(FieldMode, ValueNumberInt(s.mode as int)), Entry(FieldLeftButton, BooleanToken(s.isLeftButton));
    assert ts[0] == StartObject && ts[5] == EndObject;
    assert ts[1] == FieldName(FieldMode) && ts[2] == mode.value;
    assert ts[3] == FieldName(FieldLeftButton) && ts[4] == button.value;
    assert FieldsFrom(ts, 5) && FieldsFrom(ts, 3) && FieldsFrom(ts, 1);
    assert EntriesFrom(ts, 5) == [];
    assert EntriesFrom(ts, 3) == [button];
    assert EntriesFrom(ts, 1) == [mode, button];
    assert EndFrom(ts, 5) == 6 && EndFrom(ts, 3) == 6 && EndFrom(ts, 1) == 6;
    assert [mode, button][1..] == [button] && [button][1..] == [];
    var withMode := Defaults.(mode := s.mode);
    assert Step(Defaults, mode) == Success(withMode);
    assert Step(withMode, button) == Success(s);
    assert Apply(Defaults, [mode, button]) == Apply(withMode, [button]) == Apply(s, []);
  }

  /** Writing an action as JSON and reading it back gives an action with the same id
      and settings. The reader takes the id number before handing the stream on. */
  method JsonRoundTrip(a: TabListSingleAction) returns (b: Result<TabListSingleAction, JsonError>)
    ensures b.Success? && b.value.id == a.id && b.value.State() == a.State()
  {
    var g := new Generator();
    a.WriteIdAndData(g);
    var ts := g.written;
    assert ts[0] == ValueNumberInt(a.id as int);
    assert ts[1..] == ObjectTokens(a.State()) + [];
    ObjectRoundTrip(a.State(), []);
    var next;
    b, next := TabListSingleAction.FromJson(a.id, Some(ts[1..]));
  }

  /** The record written at position `p` is read back from `p`: the id, then the mode. */
  lemma RecordReadBack(data: seq<int32>, p: nat, id: int32, s: Settings)
    requires p <= |data|
    ensures
      var d := Overwrite(data, p, Record(id, s));
      IntAt(d, p) == id && After(d, p) == p + 1 &&
      IntAt(d, p + 1) == s.mode && After(d, p + 1) == p + 2
  {
  }

  /** Passing an action through a parcel keeps its id and mode but not its button
      side: the copy equals the original exactly when the button is on the right. */
  method ParcelRoundTrip(a: TabListSingleAction) returns (b: TabListSingleAction)
    ensures b.id == a.id && b.mode == a.mode && !b.isLeftButton
    ensures b.State() == a.State() <==> !a.isLeftButton
  {
    var p := new Parcel();
    a.WriteToParcel(p);
    p.SetDataPosition(0);
    RecordReadBack([], 0, a.id, a.State());
    b := new TabListSingleAction.FromParcel(p);
  }

  /** Pressing OK without touching the spinners, which the dialog sets from the
      current settings, leaves the settings as they were. The mode spinner offers
      the three modes only. */
  method ConfirmDialogUnchanged(a: TabListSingleAction)
    requires ModeNormal <= a.mode <= ModeHorizontal
    modifies a
    ensures a.State() == old(a.State())
  {
    a.OnDialogOk(a.mode, ButtonPosition(a.isLeftButton));
  }
}
