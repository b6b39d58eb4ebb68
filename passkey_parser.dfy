/** PasskeyParser (hotelcheck.py:28-43): the HTML callback object that finds
    the `<script id="last-search-results">` element and keeps its text.
    HTML tokenising is not modelled: the parser is fed the events that
    html.parser would deliver, as a sequence of HtmlEvent. */
module PasskeyParsing {
  import opened Wrappers
  import opened Errors
  import Text

  /** One callback from the tokenizer: handle_starttag(tag, attrs) or
      handle_data(data). An attribute written without a value has value None. */
  datatype HtmlEvent =
    | StartTag(tag: string, attrs: seq<(string, Option<string>)>)
    | Data(text: string)

  /** The parser's `json` field: None, True, or the captured text. */
  datatype Slot = Unset | Armed | Captured(text: string)

  const ScriptTag := "script"
  const ResultsId := "last-search-results"

  /** dict(attrs).get(name): the value of the LAST pair with that name, since
      dict() keeps the later of two duplicate keys; None when there is none. */
  function AttrGet(attrs: seq<(string, Option<string>)>, name: string): (r: Option<Option<string>>)
    ensures r.None? <==> forall i :: 0 <= i < |attrs| ==> attrs[i].0 != name
    ensures r.Some? ==> exists i :: 0 <= i < |attrs| && attrs[i] == (name, r.value) &&
                                   forall j :: i < j < |attrs| ==> attrs[j].0 != name
  {
    if attrs == [] then None
    else if attrs[|attrs| - 1].0 == name then Some(attrs[|attrs| - 1].1)
    else AttrGet(attrs[..|attrs| - 1], name)
  }

  /** What handle_starttag does with one tag. */
  datatype TagEffect = Ignore | Arm | Crash

  function StartTagEffect(tag: string, attrs: seq<(string, Option<string>)>): TagEffect {
    if Text.Lower(tag) != ScriptTag then Ignore
    else match AttrGet(attrs, "id")
      // attrs.get('id', '') yields '', which is not the target id
      case None => Ignore
      // attrs.get('id', '') yields None and None.lower() raises
      case Some(None) => Crash
      case Some(Some(v)) => if Text.Lower(v) == ResultsId then Arm else Ignore
  }

  /** A start tag that makes `json` True. */
  predicate Arms(e: HtmlEvent) {
    e.StartTag? && StartTagEffect(e.tag, e.attrs) == Arm
  }

  /** `json` becomes True exactly on a start tag that spells "script" up to
      case and whose last id attribute spells "last-search-results" up to case. */
  lemma ArmingTags(tag: string, attrs: seq<(string, Option<string>)>)
    ensures Arms(StartTag(tag, attrs)) <==>
            && Text.SpellsIgnoringCase(tag, ScriptTag)
            && AttrGet(attrs, "id").Some? && AttrGet(attrs, "id").value.Some?
            && Text.SpellsIgnoringCase(AttrGet(attrs, "id").value.value, ResultsId)
  {
    assert Text.NoUpper(ScriptTag);
    assert Text.NoUpper(ResultsId);
    Text.LowerEqualsIff(tag, ScriptTag);
    var id := AttrGet(attrs, "id");
    if id.Some? && id.value.Some? {
      Text.LowerEqualsIff(id.value.value, ResultsId);
    }
  }

  /** A start tag whose handler raises. */
  predicate Crashes(e: HtmlEvent) {
    e.StartTag? && StartTagEffect(e.tag, e.attrs) == Crash
  }

  /** The effect of one callback on `json`. */
  function Step(slot: Slot, e: HtmlEvent): Result<Slot, Error> {
    match e
    case StartTag(tag, attrs) =>
      (match StartTagEffect(tag, attrs)
       case Ignore => Ok(slot)
       case Arm => Ok(Armed)
       case Crash => Err(IdAttributeWithoutValue))
    case Data(text) => Ok(if slot.Armed? then Captured(text) else slot)
  }

  /** `json` after feeding the events one by one from `start`; the first
      raising callback ends the feed. */
  function Scan(start: Slot, events: seq<HtmlEvent>): Result<Slot, Error> {
    if events == [] then Ok(start)
    else match Scan(start, events[..|events| - 1])
      case Err(e) => Err(e)
      case Ok(slot) => Step(slot, events[|events| - 1])
  }

  // A description of the captured text that does not follow the callbacks:
  // the text of the first data event after the last arming start tag.

  function LastArm(events: seq<HtmlEvent>): (r: Option<nat>)
    ensures r.Some? ==> r.value < |events| && Arms(events[r.value]) &&
                        forall j :: r.value < j < |events| ==> !Arms(events[j])
    ensures r.None? ==> forall j :: 0 <= j < |events| ==> !Arms(events[j])
  {
    if events == [] then None
    else if Arms(events[|events| - 1]) then Some(|events| - 1)
    else LastArm(events[..|events| - 1])
  }

  function FirstDataFrom(events: seq<HtmlEvent>, k: nat): Option<string>
    decreases |events| - k
  {
    if k >= |events| then None
    else if events[k].Data? then Some(events[k].text)
    else FirstDataFrom(events, k + 1)
  }

  function Captures(events: seq<HtmlEvent>): Slot {
    match LastArm(events)
    case None => Unset
    case Some(m) =>
      match FirstDataFrom(events, m + 1)
      case None => Armed
      case Some(text) => Captured(text)
  }

  lemma {:induction false} FirstDataFromSnoc(events: seq<HtmlEvent>, x: HtmlEvent, k: nat)
    requires k <= |events|
    ensures FirstDataFrom(events + [x], k) ==
            if FirstDataFrom(events, k).Some? then FirstDataFrom(events, k)
            else if x.Data? then Some(x.text) else None
    decreases |events| - k
  {
    var ex := events + [x];
    if k < |events| {
      assert ex[k] == events[k];
      if !events[k].Data? {
        FirstDataFromSnoc(events, x, k + 1);
      }
    } else {
      assert ex[k] == x;
      assert FirstDataFrom(ex, k + 1) == None;
    }
  }

  /** Fed from the initial None, `json` ends as the text of the first data
      event after the last arming tag, True when that tag has no data after it,
      and None when no tag armed it, provided no handler raised. */
  lemma {:induction false} ScanCaptures(events: seq<HtmlEvent>)
    requires forall i :: 0 <= i < |events| ==> !Crashes(events[i])
    ensures Scan(Unset, events) == Ok(Captures(events))
  {
    if events != [] {
      var n := |events| - 1;
      var init, x := events[..n], events[n];
      assert events == init + [x];
      ScanCaptures(init);
      if Arms(x) {
        assert FirstDataFrom(events, n + 1) == None;
      } else if x.Data? {
        assert LastArm(events) == LastArm(init);
        match LastArm(init)
        case None =>
        case Some(m) =>
          FirstDataFromSnoc(init, x, m + 1);
      } else {
        assert LastArm(events) == LastArm(init);
        match LastArm(init)
        case None =>
        case Some(m) =>
          FirstDataFromSnoc(init, x, m + 1);
      }
    }
  }

  /** The feed fails exactly when some start tag's handler raises. */
  lemma {:induction false} ScanFailsIff(start: Slot, events: seq<HtmlEvent>)
    ensures Scan(start, events).Err? <==> exists i :: 0 <= i < |events| && Crashes(events[i])
    ensures Scan(start, events).Err? ==> Scan(start, events).error == IdAttributeWithoutValue
  {
    if events != [] {
      var n := |events| - 1;
      var init := events[..n];
      ScanFailsIff(start, init);
      if Scan(start, init).Err? {
        var i :| 0 <= i < n && Crashes(init[i]);
        assert Crashes(events[i]);
      } else {
        assert Scan(start, events) == Step(Scan(start, init).value, events[n]);
        assert forall i :: 0 <= i < n ==> !Crashes(init[i]);
        assert forall i :: 0 <= i < n ==> events[i] == init[i];
      }
    }
  }

  class PasskeyParser {
    var json: Slot

    constructor ()
      ensures json == Unset
    {
      json := Unset;
    }

    method HandleStartTag(tag: string, attrs: seq<(string, Option<string>)>) returns (r: Result<(), Error>)
      modifies this
      ensures r.Ok? <==> Step(old(json), StartTag(tag, attrs)).Ok?
      ensures r.Ok? ==> Step(old(json), StartTag(tag, attrs)) == Ok(json)
      ensures r.Err? ==> r.error == IdAttributeWithoutValue && json == old(json)
    {
      if Text.Lower(tag) == ScriptTag {
        var id := AttrGet(attrs, "id");
        if id == Some(None) {
          return Err(IdAttributeWithoutValue);
        }
        if id.Some? && Text.Lower(id.value.value) == ResultsId {
          json := Armed;
        }
      }
      return Ok(());
    }

    method HandleData(data: string)
      modifies this
      ensures Step(old(json), Data(data)) == Ok(json)
    {
      if json.Armed? {
        json := Captured(data);
      }
    }

    /** Delivers the events in order, stopping at the first handler that raises. */
    method Feed(events: seq<HtmlEvent>) returns (r: Result<(), Error>)
      modifies this
      ensures Scan(old(json), events) == if r.Ok? then Ok(json) else Err(r.error)
    {
      var i := 0;
      while i < |events|
        invariant 0 <= i <= |events|
        invariant Scan(old(json), events[..i]) == Ok(json)
      {
        assert events[..i + 1][..i] == events[..i];
        match events[i] {
          case StartTag(tag, attrs) =>
            r := HandleStartTag(tag, attrs);
            if r.Err? {
              ScanErrPersists(old(json), events, i + 1);
              return;
            }
          case Data(text) =>
            HandleData(text);
        }
        i := i + 1;
      }
      assert events[..i] == events;
      return Ok(());
    }
  }

  /** Once a prefix of the feed fails, the whole feed fails the same way. */
  lemma {:induction false} ScanErrPersists(start: Slot, events: seq<HtmlEvent>, k: nat)
    requires k <= |events|
    requires Scan(start, events[..k]).Err?
    ensures Scan(start, events) == Scan(start, events[..k])
    decreases |events| - k
  {
    if k < |events| {
      assert events[..k + 1][..k] == events[..k];
      ScanErrPersists(start, events, k + 1);
    } else {
      assert events[..k] == events;
    }
  }

  /** PasskeyParser(resp): a fresh parser fed the whole page; the exception
      of a raising handler escapes the constructor. */
  method ParsePage(events: seq<HtmlEvent>) returns (r: Result<Slot, Error>)
    ensures r == Scan(Unset, events)
  {
    var parser := new PasskeyParser();
    var fed := parser.Feed(events);
    if fed.Err? {
      return Err(fed.error);
    }
    return Ok(parser.json);
  }
}
