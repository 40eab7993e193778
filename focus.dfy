/** The focus selector of main.js: the remote-videos container, the big
    `remoteView` and the `uuidInBig` variable. */
module Focus {
  import opened Types

  /** A <video> element in the remote-videos container: its id is the peer
      id, its srcObject the peer's stream, `active` whether its class list
      holds "active". */
  datatype View = View(peer: PeerId, stream: StreamId, active: bool)

  /** `focused` is uuidInBig, `primary` is remoteView.srcObject (None when
      blank), `views` the container's children in document order. */
  datatype Screen = Screen(focused: Option<PeerId>, primary: Option<StreamId>, views: seq<View>)

  /** The blank page. */
  function Blank(): (sc: Screen)
    ensures sc.focused == None && sc.primary == None && |sc.views| == 0
  {
    Screen(None, None, [])
  }

  /** Whether the element's ID is `id`. An element whose id attribute is
      the empty string has no ID, so nothing has the ID "". */
  predicate HasId(v: View, id: PeerId) {
    id != "" && v.peer == id
  }

  /** document.getElementById(id): the position of the first element in
      document order whose ID is `id`, or None when there is none; always
      None for "". */
  function FirstView(vs: seq<View>, id: PeerId): (r: Option<nat>)
    ensures r.Some? ==> r.value < |vs| && HasId(vs[r.value], id)
    ensures r.Some? ==> forall j :: 0 <= j < r.value ==> !HasId(vs[j], id)
    ensures r.None? ==> forall j :: 0 <= j < |vs| ==> !HasId(vs[j], id)
    ensures id == "" ==> r.None?
  {
    if vs == [] then None
    else if HasId(vs[0], id) then Some(0)
    else match FirstView(vs[1..], id)
      case None => None
      case Some(k) =>
        assert forall j :: 1 <= j < k + 1 ==> vs[j] == vs[1..][j - 1];
        Some(k + 1)
  }

  /** The first element with id `id` sits at `i`. */
  lemma FirstViewAt(vs: seq<View>, id: PeerId, i: nat)
    requires i < |vs| && HasId(vs[i], id)
    requires forall j :: 0 <= j < i ==> !HasId(vs[j], id)
    ensures FirstView(vs, id) == Some(i)
  {
  }

  /** How many elements have the ID `id` (none have the ID ""). */
  function ViewCount(vs: seq<View>, id: PeerId): (n: nat)
    ensures n == 0 <==> FirstView(vs, id).None?
    ensures n <= |vs|
  {
    if vs == [] then 0
    else (if HasId(vs[0], id) then 1 else 0) + ViewCount(vs[1..], id)
  }

  /** `videoElement.remove()` on the element getElementById(id) returns:
      the first element with that id leaves the container, the others stay
      in order. */
  function RemoveFirst(vs: seq<View>, id: PeerId): (r: seq<View>)
    ensures FirstView(vs, id).None? ==> r == vs
    ensures FirstView(vs, id).Some? ==>
      var i := FirstView(vs, id).value; r == vs[..i] + vs[i + 1..]
  {
    if vs == [] then []
    else if HasId(vs[0], id) then vs[1..]
    else
      var rest := RemoveFirst(vs[1..], id);
      match FirstView(vs[1..], id)
      case None =>
        assert FirstView(vs, id).None?;
        assert rest == vs[1..];
        assert [vs[0]] + vs[1..] == vs;
        [vs[0]] + rest
      case Some(k) =>
        assert FirstView(vs, id) == Some(k + 1);
        ConsWithout(vs, k);
        [vs[0]] + rest
  }

  /** Putting back the head of `vs` in front of its tail without the
      element at `k` gives `vs` without the element at `k + 1`. */
  lemma ConsWithout(vs: seq<View>, k: nat)
    requires k + 1 < |vs|
    ensures [vs[0]] + (vs[1..][..k] + vs[1..][k + 1..]) == vs[..k + 1] + vs[k + 2..]
  {
    assert vs[1..][..k] == vs[1..k + 1];
    assert vs[1..][k + 1..] == vs[k + 2..];
    assert [vs[0]] + vs[1..k + 1] == vs[..k + 1];
  }

  /** Removing the first element with id `id` lowers the count of `id` by
      one, unless there was none. */
  lemma {:induction false} RemoveFirstCount(vs: seq<View>, id: PeerId)
    ensures ViewCount(RemoveFirst(vs, id), id) == if ViewCount(vs, id) == 0 then 0 else ViewCount(vs, id) - 1
  {
    if vs != [] && !HasId(vs[0], id) {
      var rest := RemoveFirst(vs[1..], id);
      assert RemoveFirst(vs, id) == [vs[0]] + rest;
      assert ([vs[0]] + rest)[1..] == rest;
      RemoveFirstCount(vs[1..], id);
    }
  }

  /** The same elements in the same order, whatever their class lists. */
  predicate SamePeers(vs: seq<View>, ws: seq<View>) {
    |vs| == |ws| && forall j :: 0 <= j < |vs| ==> vs[j].peer == ws[j].peer && vs[j].stream == ws[j].stream
  }

  /** Changing class lists does not change what getElementById finds. */
  lemma {:induction false} FirstViewIgnoresClasses(vs: seq<View>, ws: seq<View>, id: PeerId)
    requires SamePeers(vs, ws)
    ensures FirstView(vs, id) == FirstView(ws, id)
  {
    if vs != [] && !HasId(vs[0], id) {
      assert SamePeers(vs[1..], ws[1..]) by {
        forall j | 0 <= j < |vs| - 1 ensures vs[1..][j] == vs[j + 1] && ws[1..][j] == ws[j + 1] { }
      }
      FirstViewIgnoresClasses(vs[1..], ws[1..], id);
    }
  }

  /** Sets or clears the "active" class of the element at `i`. */
  function Mark(vs: seq<View>, i: nat, on: bool): (r: seq<View>)
    requires i < |vs|
    ensures SamePeers(vs, r) && r[i].active == on
    ensures forall j :: 0 <= j < |vs| && j != i ==> r[j] == vs[j]
  {
    vs[i := vs[i].(active := on)]
  }

  /** JavaScript truthiness of uuidInBig: undefined and "" are falsy. */
  predicate Truthy(p: Option<PeerId>) {
    p.Some? && p.value != ""
  }

  /** The element setBigVideo takes "active" away from: the one
      getElementById(uuidInBig) finds, when uuidInBig is truthy. */
  function PreviousMarked(sc: Screen): (r: Option<nat>)
    ensures r.Some? ==> Truthy(sc.focused) && r == FirstView(sc.views, sc.focused.value)
    ensures Truthy(sc.focused) ==> r == FirstView(sc.views, sc.focused.value)
  {
    if Truthy(sc.focused) then FirstView(sc.views, sc.focused.value) else None
  }

  /** setBigVideo(uuid): the big view shows the stream of the element
      getElementById(uuid) finds, the previously focused element loses
      "active" (if it still exists), that element gains it, and uuidInBig
      becomes `uuid`. The caller must ensure the element exists: the source
      dereferences it unguarded. */
  function SetBigVideo(sc: Screen, uuid: PeerId): (r: Screen)
    requires FirstView(sc.views, uuid).Some?
    ensures r.focused == Some(uuid)
    ensures SamePeers(sc.views, r.views)
    ensures var i := FirstView(sc.views, uuid).value;
      r.primary == Some(sc.views[i].stream) && r.views[i].active &&
      forall j :: 0 <= j < |r.views| && j != i ==>
        (r.views[j].active <==> sc.views[j].active && PreviousMarked(sc) != Some(j))
  {
    var i := FirstView(sc.views, uuid).value;
    var cleared := match PreviousMarked(sc)
      case None => sc.views
      case Some(k) => Mark(sc.views, k, false);
    Screen(Some(uuid), Some(sc.views[i].stream), Mark(cleared, i, true))
  }

  /** The ontrack callback: a new, inactive element for `uuid` showing
      `stream` is appended to the container, then setBigVideo(uuid) runs
      when the big view is blank. For the empty id that call throws at
      getElementById("") once the element is appended, and changes nothing. */
  function ShowTrack(sc: Screen, uuid: PeerId, stream: StreamId): (r: Screen)
    ensures uuid != "" ==> FirstView(sc.views + [View(uuid, stream, false)], uuid).Some?
    ensures sc.primary.None? && uuid != "" ==>
      r == SetBigVideo(sc.(views := sc.views + [View(uuid, stream, false)]), uuid)
    ensures sc.primary.Some? || uuid == "" ==>
      r == sc.(views := sc.views + [View(uuid, stream, false)])
    ensures |r.views| == |sc.views| + 1
    ensures r.views[|sc.views|].peer == uuid && r.views[|sc.views|].stream == stream
    ensures forall j :: 0 <= j < |sc.views| ==> r.views[j].peer == sc.views[j].peer && r.views[j].stream == sc.views[j].stream
    ensures sc.primary.None? && uuid != "" ==> r.focused == Some(uuid) && r.primary.Some?
    ensures sc.primary.None? && uuid != "" && FirstView(sc.views, uuid).None? ==>
      r.primary == Some(stream) && r.views[|sc.views|].active
  {
    var shown := sc.(views := sc.views + [View(uuid, stream, false)]);
    FirstViewAppend(sc.views, View(uuid, stream, false), uuid);
    if sc.primary.None? && FirstView(shown.views, uuid).Some? then
      SetBigVideo(shown, uuid)
    else
      shown
  }

  /** The screen side of handleLogout: the big view is blanked exactly when
      the leaving peer is uuidInBig, uuidInBig itself is left as it was, and
      the element getElementById(peer) finds is removed. */
  function Leave(sc: Screen, peer: PeerId): (r: Screen)
    ensures r.focused == sc.focused
    ensures sc.focused == Some(peer) ==> r.primary == None
    ensures sc.focused != Some(peer) ==> r.primary == sc.primary
    ensures ViewCount(r.views, peer) == if ViewCount(sc.views, peer) == 0 then 0 else ViewCount(sc.views, peer) - 1
    ensures FirstView(sc.views, peer).None? ==> r.views == sc.views
    ensures r.views == RemoveFirst(sc.views, peer)
  {
    RemoveFirstCount(sc.views, peer);
    Screen(sc.focused, if sc.focused == Some(peer) then None else sc.primary, RemoveFirst(sc.views, peer))
  }

  /** Leaving twice equals leaving once exactly when the peer had at most one
      element: a second element with the same id is removed by the second
      logout. */
  lemma LeaveTwice(sc: Screen, peer: PeerId)
    ensures Leave(Leave(sc, peer), peer) == Leave(sc, peer) <==> ViewCount(sc.views, peer) <= 1
  {
  }

  /** The focus invariant: only the first element of the focused peer can
      carry "active", and a non-blank big view shows the stream of that
      element, which is then active. */
  ghost predicate FocusInv(sc: Screen) {
    (forall i :: 0 <= i < |sc.views| && sc.views[i].active ==>
       sc.focused == Some(sc.views[i].peer) &&
       FirstView(sc.views, sc.views[i].peer) == Some(i)) &&
    (sc.primary.Some? ==> sc.focused.Some? && ShowsFocused(sc))
  }

  /** The big view shows the focused peer's first element, which is active. */
  ghost predicate ShowsFocused(sc: Screen)
    requires sc.focused.Some?
  {
    match FirstView(sc.views, sc.focused.value)
    case None => false
    case Some(i) => sc.views[i].active && sc.primary == Some(sc.views[i].stream)
  }

  /** Under the invariant at most one element carries "active". */
  lemma AtMostOneActive(sc: Screen, i: nat, j: nat)
    requires FocusInv(sc)
    requires i < |sc.views| && j < |sc.views| && sc.views[i].active && sc.views[j].active
    ensures i == j
  {
  }

  lemma BlankFocusInv()
    ensures FocusInv(Blank())
  {
  }

  /** setBigVideo keeps the focus invariant. */
  lemma SetBigVideoKeepsInv(sc: Screen, uuid: PeerId)
    requires FocusInv(sc) && FirstView(sc.views, uuid).Some?
    ensures FocusInv(SetBigVideo(sc, uuid))
  {
  }

  /** Appending an element does not change what getElementById finds for
      ids that already had one. */
  lemma FirstViewAppend(vs: seq<View>, v: View, id: PeerId)
    ensures FirstView(vs, id).Some? ==> FirstView(vs + [v], id) == FirstView(vs, id)
    ensures FirstView(vs, id).None? && HasId(v, id) ==> FirstView(vs + [v], id) == Some(|vs|)
    ensures FirstView(vs, id).None? && !HasId(v, id) ==> FirstView(vs + [v], id).None?
  {
    var ws := vs + [v];
    match FirstView(vs, id)
    case Some(i) => FirstViewAt(ws, id, i);
    case None =>
      if HasId(v, id) { FirstViewAt(ws, id, |vs|); }
  }

  /** The ontrack callback keeps the focus invariant. */
  lemma ShowTrackKeepsInv(sc: Screen, uuid: PeerId, stream: StreamId)
    requires FocusInv(sc)
    ensures FocusInv(ShowTrack(sc, uuid, stream))
  {
    var shown := sc.(views := sc.views + [View(uuid, stream, false)]);
    forall x ensures FirstView(sc.views, x).Some? ==> FirstView(shown.views, x) == FirstView(sc.views, x) {
      FirstViewAppend(sc.views, View(uuid, stream, false), x);
    }
    assert FocusInv(shown);
    if sc.primary.None? && uuid != "" {
      FirstViewAppend(sc.views, View(uuid, stream, false), uuid);
      SetBigVideoKeepsInv(shown, uuid);
    }
  }

  /** Removing the element at `k` keeps every other first element first,
      one position earlier when it stood after `k`. */
  lemma FirstViewAfterRemove(vs: seq<View>, k: nat, i: nat)
    requires k < |vs| && i < |vs| && i != k
    requires FirstView(vs, vs[i].peer) == Some(i)
    ensures var r := vs[..k] + vs[k + 1..];
      var i' := if i < k then i else i - 1;
      i' < |r| && r[i'] == vs[i] && FirstView(r, vs[i].peer) == Some(i')
  {
  }

  /** Removing the first element of `peer` keeps the invariant's first half:
      every element still active is the first of the focused peer. */
  lemma LeaveKeepsMarks(sc: Screen, peer: PeerId)
    requires FocusInv(sc)
    ensures var r := Leave(sc, peer);
      forall j' :: 0 <= j' < |r.views| && r.views[j'].active ==>
        r.focused == Some(r.views[j'].peer) &&
        FirstView(r.views, r.views[j'].peer) == Some(j')
  {
    var r := Leave(sc, peer);
    if FirstView(sc.views, peer).Some? {
      var k := FirstView(sc.views, peer).value;
      forall j' | 0 <= j' < |r.views| && r.views[j'].active
        ensures r.focused == Some(r.views[j'].peer) &&
                FirstView(r.views, r.views[j'].peer) == Some(j')
      {
        MarkSurvivesRemoval(sc, k, j');
      }
    }
  }

  /** One active element of the container after the removal at `k`. */
  lemma MarkSurvivesRemoval(sc: Screen, k: nat, j': nat)
    requires FocusInv(sc)
    requires k < |sc.views| && j' < |sc.views| - 1
    ensures var r := sc.views[..k] + sc.views[k + 1..];
      r[j'].active ==>
        sc.focused == Some(r[j'].peer) && FirstView(r, r[j'].peer) == Some(j')
  {
  }

  /** handleLogout's screen effect keeps the focus invariant, although it
      leaves uuidInBig pointing at the departed peer. */
  lemma LeaveKeepsInv(sc: Screen, peer: PeerId)
    requires FocusInv(sc)
    ensures FocusInv(Leave(sc, peer))
  {
    var r := Leave(sc, peer);
    LeaveKeepsMarks(sc, peer);
    if r.primary.Some? && FirstView(sc.views, peer).Some? {
      var k := FirstView(sc.views, peer).value;
      var i := FirstView(sc.views, sc.focused.value).value;
      FirstViewAfterRemove(sc.views, k, i);
    }
  }
}
