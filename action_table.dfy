/**
 * The nested action table the dispatcher looks actions up in (`sheetImageActions`),
 * and the lookup itself, Foundry's `getProperty(object, "a.b.c")`.  The table's
 * contents live in a file that is not part of this model, so it is a parameter: an
 * object with the phase handlers it owns and its object-valued members by name.
 */
module ActionTable {
  import opened Wrappers
  import opened Text

  /** The three handler slots an action descriptor may own. */
  datatype Phase = OnClick | OnHover | OnChange

  /** The property name of a handler slot. */
  function HandlerName(p: Phase): (name: string)
    ensures name in {"onClick", "onHover", "onChange"}
  {
    match p
    case OnClick => "onClick"
    case OnHover => "onHover"
    case OnChange => "onChange"
  }

  /**
   * The handler slot `handleAction` calls for an action type: `"hoverAction"` selects
   * `onHover`, `"changeAction"` selects `onChange`, and every other type (the default
   * `"action"` among them) keeps `onClick`.
   */
  function PhaseFor(actionType: string): (p: Phase)
    ensures HandlerName(p) == "onHover" <==> actionType == "hoverAction"
    ensures HandlerName(p) == "onChange" <==> actionType == "changeAction"
    ensures HandlerName(p) == "onClick" <==> actionType != "hoverAction" && actionType != "changeAction"
  {
    if actionType == "hoverAction" then OnHover
    else if actionType == "changeAction" then OnChange
    else OnClick
  }

  /** A JavaScript object of the table: the handlers it owns and its members that are objects. */
  datatype ActionObject = ActionObject(handlers: set<Phase>, members: map<string, ActionObject>)

  /** Walk the members named by `segments`, one at a time; absent as soon as one is missing. */
  function Walk(o: ActionObject, segments: seq<string>): Option<ActionObject>
    decreases |segments|
  {
    if segments == [] then Some(o)
    else if segments[0] in o.members then Walk(o.members[segments[0]], segments[1..])
    else None
  }

  /** `getProperty(table, key)`: an absent or empty key finds nothing; otherwise walk its dot-separated segments. */
  function GetProperty(table: ActionObject, key: Option<string>): Option<ActionObject> {
    if key.None? || key.value == "" then None
    else Walk(table, Split(key.value, '.'))
  }

  /** Walking `a + b` is walking `a`, then `b` from where that ended. */
  lemma {:induction false} WalkAppend(o: ActionObject, a: seq<string>, b: seq<string>)
    ensures Walk(o, a + b) == match Walk(o, a) case None => None case Some(m) => Walk(m, b)
    decreases |a|
  {
    if a == [] {
      assert a + b == b;
    } else {
      assert (a + b)[1..] == a[1..] + b;
      if a[0] in o.members {
        WalkAppend(o.members[a[0]], a[1..], b);
      }
    }
  }

  /**
   * Once some segment is missing from the object reached so far, the whole lookup is
   * absent, whatever the remaining segments are.
   */
  lemma MissingSegmentIsAbsent(o: ActionObject, segments: seq<string>, k: nat)
    requires k < |segments|
    requires Walk(o, segments[..k]).Some? && segments[k] !in Walk(o, segments[..k]).value.members
    ensures Walk(o, segments).None?
  {
    WalkAppend(o, segments[..k], segments[k..]);
    assert segments[..k] + segments[k..] == segments;
  }

  /**
   * The dot path of a sequence of segments names exactly the member those segments
   * reach: `getProperty(table, "a.b.c")` is `table.a.b.c`.
   */
  lemma DotPathLookup(table: ActionObject, segments: seq<string>)
    requires |segments| >= 1 && segments != [""]
    requires forall i :: 0 <= i < |segments| ==> '.' !in segments[i]
    ensures GetProperty(table, Some(Join(segments, '.'))) == Walk(table, segments)
  {
    SplitJoin(segments, '.');
  }
}
