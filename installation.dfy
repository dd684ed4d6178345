/**
 * The tag and layer tables that the editor installer (RCC_Installation) edits.
 *
 * Unity keeps both in the project's TagManager asset as serialized string arrays:
 * `tags` grows and shrinks, `layers` always has 32 slots. Each static method of the
 * installer loads that asset, edits the array and saves it; here the asset is one
 * TagManager object whose methods edit its fields in place.
 */
module Installation {
  import opened Wrappers

  /** Unity's layer table always has this many slots. */
  const LayerCount := 32
  /** LayerExists and CheckLayer look at slots [0, 31): slot 31 is never searched. */
  const SearchedLayers := 31
  /** Slots 0..7 are Unity's built-in layers; CheckLayer allocates from slot 8 on. */
  const FirstUserLayer := 8
  /** The fixed upper bound up to which TagExists scans, whatever the table's size. */
  const TagScanLimit := 10000
  const UntaggedTag := "Untagged"
  /** The layers Check looks for, in the order of its missingLayers array. */
  const RequiredLayers: seq<string> := ["RCC_Vehicle", "RCC_WheelCollider", "RCC_DetachablePart", "RCC_Prop"]

  // ---------------------------------------------------------------------------
  // Searching

  /** Linear search of property[start..end) for value. */
  method PropertyExists(property: seq<string>, start: int, end: int, value: string) returns (found: bool)
    requires start < end ==> 0 <= start && end <= |property|
    ensures found <==> exists i :: start <= i < end && property[i] == value
  {
    var i := start;
    while i < end
      invariant start <= i
      invariant start < end ==> i <= end
      invariant start >= end ==> i == start
      invariant forall k :: start <= k < i ==> property[k] != value
    {
      if property[i] == value {
        return true;
      }
      i := i + 1;
    }
    return false;
  }

  /** Index of the first occurrence of v in s, or |s| when there is none. */
  function IndexOf<T(==)>(s: seq<T>, v: T): (i: nat)
    ensures i <= |s|
    ensures i < |s| <==> v in s
    ensures i < |s| ==> s[i] == v
    ensures forall j :: 0 <= j < i ==> s[j] != v
  {
    if s == [] then 0
    else if s[0] == v then 0
    else 1 + IndexOf(s[1..], v)
  }

  /** The name occupies one of the searched slots 0..30 of a layer table. */
  predicate Listed(layers: seq<string>, name: string)
    requires |layers| == LayerCount
  {
    name in layers[..SearchedLayers]
  }

  /** Some slot of the user range 8..30 is still empty. */
  predicate HasFreeUserSlot(layers: seq<string>)
    requires |layers| == LayerCount
  {
    "" in layers[FirstUserLayer..SearchedLayers]
  }

  /** The lowest empty slot of the user range, or SearchedLayers when that range is full. */
  function FirstFreeUserSlot(layers: seq<string>): (k: nat)
    requires |layers| == LayerCount
    ensures FirstUserLayer <= k <= SearchedLayers
    ensures k < SearchedLayers <==> HasFreeUserSlot(layers)
    ensures k < SearchedLayers ==> layers[k] == ""
    ensures forall j :: FirstUserLayer <= j < k ==> layers[j] != ""
  {
    var user := layers[FirstUserLayer..SearchedLayers];
    var k := FirstUserLayer + IndexOf(user, "");
    assert forall j :: FirstUserLayer <= j < k ==> layers[j] == user[j - FirstUserLayer];
    k
  }

  // ---------------------------------------------------------------------------
  // The tables the editing operations leave behind

  /** The layer table after CheckLayer(name). */
  function WithLayer(layers: seq<string>, name: string): (r: seq<string>)
    requires |layers| == LayerCount
    ensures |r| == LayerCount
    ensures Listed(layers, name) ==> r == layers
    ensures Listed(r, name) <==> Listed(layers, name) || HasFreeUserSlot(layers)
    // at most one slot changes: the lowest empty slot of the user range
    ensures forall i :: 0 <= i < LayerCount && r[i] != layers[i] ==>
              FirstUserLayer <= i < SearchedLayers && layers[i] == "" && r[i] == name
              && forall j :: FirstUserLayer <= j < i ==> layers[j] != ""
  {
    var k := FirstFreeUserSlot(layers);
    if Listed(layers, name) || k == SearchedLayers then layers
    else
      var r := layers[k := name];
      assert r[..SearchedLayers][k] == name;
      r
  }

  /** The layer table after RemoveLayer(name). */
  function WithoutLayer(layers: seq<string>, name: string): (r: seq<string>)
    ensures |r| == |layers|
    ensures name !in layers ==> r == layers
    ensures name in layers ==> r[IndexOf(layers, name)] == ""
    // only the first slot holding the name changes
    ensures forall i :: 0 <= i < |layers| && r[i] != layers[i] ==> i == IndexOf(layers, name)
  {
    if name in layers then layers[IndexOf(layers, name) := ""] else layers
  }

  /** The tag table after CheckTag(name). */
  function WithTag(tags: seq<string>, name: string): (r: seq<string>)
    ensures name in r
    ensures name in tags ==> r == tags
    ensures name !in tags ==> |r| == |tags| + 1 && r[..|tags|] == tags && r[|tags|] == name
  {
    if name in tags then tags else tags + [name]
  }

  /** The tag table after RemoveTag(name). */
  function WithoutTag(tags: seq<string>, name: string): (r: seq<string>)
    ensures name !in tags ==> r == tags
    ensures name in tags ==> |r| == |tags| - 1
    // the entries before the first occurrence stay in place, the ones after it move down by one
    ensures forall j :: 0 <= j < IndexOf(tags, name) && j < |r| ==> r[j] == tags[j]
    ensures forall j :: IndexOf(tags, name) <= j < |r| ==> r[j] == tags[j + 1]
  {
    if name in tags then tags[..IndexOf(tags, name)] + tags[IndexOf(tags, name) + 1..] else tags
  }

  /** RemoveTag takes away exactly one copy of a present tag and nothing else. */
  lemma RemoveTagCounts(tags: seq<string>, name: string)
    ensures multiset(WithoutTag(tags, name)) == multiset(tags) - multiset{name}
  {
    if name in tags {
      MultisetWithoutAt(tags, IndexOf(tags, name));
    }
  }

  lemma MultisetWithoutAt<T>(s: seq<T>, i: nat)
    requires i < |s|
    ensures multiset(s[..i] + s[i + 1..]) == multiset(s) - multiset{s[i]}
  {
    assert s == s[..i] + [s[i]] + s[i + 1..];
  }

  // ---------------------------------------------------------------------------
  // Lemmas relating the editing operations

  /** Removing a tag that CheckTag has just added gives back the original table. */
  lemma RemoveTagUndoesCheckTag(tags: seq<string>, name: string)
    requires name !in tags
    ensures WithoutTag(WithTag(tags, name), name) == tags
  {
  }

  /** Removing a layer that CheckLayer has just added gives back the original table. */
  lemma RemoveLayerUndoesCheckLayer(layers: seq<string>, name: string)
    requires |layers| == LayerCount
    requires name !in layers
    ensures WithoutLayer(WithLayer(layers, name), name) == layers
  {
  }

  /** CheckLayer is idempotent: a second call with the same name changes nothing. */
  lemma CheckLayerIdempotent(layers: seq<string>, name: string)
    requires |layers| == LayerCount
    ensures WithLayer(WithLayer(layers, name), name) == WithLayer(layers, name)
  {
  }

  /** CheckLayer with the empty name never changes the table: either some searched slot is
      already empty, so "" is listed, or the user range is full. */
  lemma WithLayerEmptyName(layers: seq<string>)
    requires |layers| == LayerCount
    ensures WithLayer(layers, "") == layers
  {
  }

  /** A non-empty layer that is listed, or a full user range, survives a later CheckLayer. */
  lemma WithLayerKeepsSettled(layers: seq<string>, name: string, other: string)
    requires |layers| == LayerCount
    requires other != ""
    requires Listed(layers, other) || !HasFreeUserSlot(layers)
    ensures var r := WithLayer(layers, name); Listed(r, other) || !HasFreeUserSlot(r)
  {
  }

  /** Right after CheckLayer(name), the name is listed or the user range is full. */
  lemma WithLayerSettles(layers: seq<string>, name: string)
    requires |layers| == LayerCount
    ensures var r := WithLayer(layers, name); Listed(r, name) || !HasFreeUserSlot(r)
  {
  }

  /** CheckLayer applied to each name in turn, as Check does with the four RCC layers. */
  function WithLayers(layers: seq<string>, names: seq<string>): (r: seq<string>)
    requires |layers| == LayerCount
    ensures |r| == LayerCount
    decreases |names|
  {
    if names == [] then layers else WithLayers(WithLayer(layers, names[0]), names[1..])
  }

  /** Every slot that the calls change was an empty user slot and now holds one of the names:
      the built-in slots 0..7, the unsearched slot 31 and every named slot are kept. */
  lemma {:induction false} WithLayersFillsOnlyEmpty(layers: seq<string>, names: seq<string>)
    requires |layers| == LayerCount
    requires forall k :: 0 <= k < |names| ==> names[k] != ""
    ensures var r := WithLayers(layers, names);
      forall i :: 0 <= i < LayerCount && r[i] != layers[i] ==>
        FirstUserLayer <= i < SearchedLayers && layers[i] == "" && r[i] in names
    decreases |names|
  {
    if names != [] {
      var b := WithLayer(layers, names[0]);
      WithLayersFillsOnlyEmpty(b, names[1..]);
      var r := WithLayers(layers, names);
      forall i | 0 <= i < LayerCount && r[i] != layers[i]
        ensures FirstUserLayer <= i < SearchedLayers && layers[i] == "" && r[i] in names
      {
        if b[i] != layers[i] {
          assert b[i] == names[0] && r[i] == b[i];
        } else {
          assert r[i] in names[1..];
        }
      }
    }
  }

  /** A non-empty name that is listed, or a full user range, survives any further calls. */
  lemma {:induction false} WithLayersKeepsSettled(layers: seq<string>, names: seq<string>, other: string)
    requires |layers| == LayerCount
    requires other != ""
    requires Listed(layers, other) || !HasFreeUserSlot(layers)
    ensures var r := WithLayers(layers, names); Listed(r, other) || !HasFreeUserSlot(r)
    decreases |names|
  {
    if names != [] {
      WithLayerKeepsSettled(layers, names[0], other);
      WithLayersKeepsSettled(WithLayer(layers, names[0]), names[1..], other);
    }
  }

  /** After the calls every name is listed, unless the user range is full. */
  lemma {:induction false} WithLayersSettles(layers: seq<string>, names: seq<string>)
    requires |layers| == LayerCount
    requires forall k :: 0 <= k < |names| ==> names[k] != ""
    ensures var r := WithLayers(layers, names);
      forall k :: 0 <= k < |names| ==> Listed(r, names[k]) || !HasFreeUserSlot(r)
    decreases |names|
  {
    if names != [] {
      var b := WithLayer(layers, names[0]);
      WithLayerSettles(layers, names[0]);
      WithLayersKeepsSettled(b, names[1..], names[0]);
      WithLayersSettles(b, names[1..]);
      var r := WithLayers(layers, names);
      forall k | 0 <= k < |names|
        ensures Listed(r, names[k]) || !HasFreeUserSlot(r)
      {
        if k > 0 {
          assert names[k] == names[1..][k - 1];
        }
      }
    }
  }

  // ---------------------------------------------------------------------------
  // TagExists as written

  /** The scan PropertyExists performs, with the index left unchecked against the table:
      reaching an index past the end gives None, because GetArrayElementAtIndex returns no
      element there and reading its stringValue throws. */
  function ScanAsWritten(property: seq<string>, i: nat, end: nat, value: string): Option<bool>
    decreases end - i
  {
    if i >= end then Some(false)
    else if i >= |property| then None
    else if property[i] == value then Some(true)
    else ScanAsWritten(property, i + 1, end, value)
  }

  /** TagExists as written: it scans the fixed range [0, TagScanLimit). */
  function TagExistsAsWritten(tags: seq<string>, tagName: string): Option<bool>
  {
    ScanAsWritten(tags, 0, TagScanLimit, tagName)
  }

  lemma {:induction false} ScanAsWrittenMissing(property: seq<string>, i: nat, end: nat, value: string)
    requires i <= |property| < end
    requires forall k :: i <= k < |property| ==> property[k] != value
    ensures ScanAsWritten(property, i, end, value) == None
    decreases |property| - i
  {
    if i < |property| {
      ScanAsWrittenMissing(property, i + 1, end, value);
    }
  }

  lemma {:induction false} ScanAsWrittenPresent(property: seq<string>, i: nat, end: nat, value: string, at: nat)
    requires i <= at < end && at < |property| && property[at] == value
    ensures ScanAsWritten(property, i, end, value) == Some(true)
    decreases at - i
  {
    if property[i] != value {
      ScanAsWrittenPresent(property, i + 1, end, value, at);
    }
  }

  /** As written, TagExists answers true for a present tag but fails, instead of answering
      false, for a missing tag whenever the table is shorter than TagScanLimit; so the
      branch of CheckTag that appends a missing tag is never reached on such a table. */
  lemma TagExistsAsWrittenFails(tags: seq<string>, tagName: string)
    requires |tags| < TagScanLimit
    ensures tagName in tags ==> TagExistsAsWritten(tags, tagName) == Some(true)
    ensures tagName !in tags ==> TagExistsAsWritten(tags, tagName) == None
  {
    if tagName in tags {
      ScanAsWrittenPresent(tags, 0, TagScanLimit, tagName, IndexOf(tags, tagName));
    } else {
      ScanAsWrittenMissing(tags, 0, TagScanLimit, tagName);
    }
  }

  // ---------------------------------------------------------------------------
  // NewTag's name

  /** The name NewTag returns: "Untagged" for a null or empty name, the name otherwise. */
  function TagOrUntagged(name: Option<string>): (r: string)
    ensures r != ""
    ensures name.Some? && name.value != "" ==> r == name.value
    ensures r == UntaggedTag <==> name == None || name == Some("") || name == Some(UntaggedTag)
  {
    if name == None || name == Some("") then UntaggedTag else name.value
  }

  // ---------------------------------------------------------------------------
  // De-duplication of found prefabs

  /** The pass CheckAllVehicleLayers (and its detachable-part, prop and trailer siblings) runs
      over the components it found: keep each one the first time it is seen. */
  method CollectDistinct<T(==)>(found: seq<T>) returns (all: seq<T>)
    ensures forall i, j :: 0 <= i < j < |all| ==> all[i] != all[j]
    ensures forall x :: x in all <==> x in found
    ensures forall i, j :: 0 <= i < j < |all| ==> IndexOf(found, all[i]) < IndexOf(found, all[j])
  {
    all := [];
    var n := 0;
    while n < |found|
      invariant n <= |found|
      invariant forall i, j :: 0 <= i < j < |all| ==> all[i] != all[j]
      invariant forall x :: x in all <==> x in found[..n]
      invariant forall i :: 0 <= i < |all| ==> IndexOf(found, all[i]) < n
      invariant forall i, j :: 0 <= i < j < |all| ==> IndexOf(found, all[i]) < IndexOf(found, all[j])
    {
      var item := found[n];
      if item !in all {
        assert IndexOf(found, item) == n by {
          assert forall k :: 0 <= k < n ==> found[..n][k] == found[k] && found[k] != item;
        }
        all := all + [item];
      }
      assert found[..n + 1] == found[..n] + [item];
      n := n + 1;
    }
    assert found[..n] == found;
  }

  // ---------------------------------------------------------------------------
  // The TagManager asset

  class TagManager {
    /** The tags array; it grows and shrinks. */
    var tags: seq<string>
    /** The layers array; it has LayerCount slots. */
    const layers: array<string>

    ghost predicate Valid()
      reads this
    {
      layers.Length == LayerCount
    }

    constructor (tags: seq<string>, layers: array<string>)
      requires layers.Length == LayerCount
      ensures Valid() && this.tags == tags && this.layers == layers
    {
      this.tags := tags;
      this.layers := layers;
    }

    /** TagExists with its scan bounded by the size of the table. */
    method TagExists(tagName: string) returns (found: bool)
      ensures found <==> tagName in tags
    {
      found := PropertyExists(tags, 0, |tags|, tagName);
    }

    /** Looks only at slots 0..30. */
    method LayerExists(layerName: string) returns (found: bool)
      requires Valid()
      ensures found <==> exists i :: 0 <= i < SearchedLayers && layers[i] == layerName
      ensures found <==> Listed(layers[..], layerName)
    {
      found := PropertyExists(layers[..], 0, SearchedLayers, layerName);
      assert forall i :: 0 <= i < SearchedLayers ==> layers[..SearchedLayers][i] == layers[i];
    }

    /** Appends the tag when the table lacks it; answers true either way. */
    method CheckTag(tagName: string) returns (ok: bool)
      modifies this`tags
      ensures ok
      ensures tags == WithTag(old(tags), tagName)
    {
      var known := TagExists(tagName);
      if known {
        return true;
      }
      var present := PropertyExists(tags, 0, |tags|, tagName);
      if !present {
        var index := |tags|;
        tags := tags[..index] + [tagName] + tags[index..];
        return true;
      }
      return false;
    }

    /** Registers the tag (when a name is given) and answers the tag to use. */
    method NewTag(name: Option<string>) returns (r: string)
      modifies this`tags
      ensures r == TagOrUntagged(name)
      ensures tags == if name.Some? then WithTag(old(tags), name.value) else old(tags)
    {
      if name.Some? {
        var _ := CheckTag(name.value);
      }
      r := TagOrUntagged(name);
    }

    /** Deletes the first occurrence of the tag; the later tags move down by one. */
    method RemoveTag(tagName: string) returns (removed: bool)
      modifies this`tags
      ensures removed <==> tagName in old(tags)
      ensures tags == WithoutTag(old(tags), tagName)
    {
      var present := PropertyExists(tags, 0, |tags|, tagName);
      removed := false;
      if present {
        var i, j := 0, |tags|;
        while i < j && !removed
          invariant j == |old(tags)|
          invariant 0 <= i <= j
          invariant !removed ==> tags == old(tags) && tagName !in tags[..i] && tagName in tags[i..]
          invariant removed ==> tags == WithoutTag(old(tags), tagName)
          decreases j - i, !removed
        {
          if tags[i] == tagName {
            assert IndexOf(tags, tagName) == i by {
              assert forall k :: 0 <= k < i ==> tags[..i][k] == tags[k];
            }
            tags := tags[..i] + tags[i + 1..];
            removed := true;
          } else {
            assert tags[..i + 1] == tags[..i] + [tags[i]];
            assert tags[i..] == [tags[i]] + tags[i + 1..];
            i := i + 1;
          }
        }
      }
    }

    /** Writes the name into the lowest empty slot of 8..30 unless slots 0..30 already hold it.
        Answers true when the name was already there or has been added, false when the user
        range was full. */
    method CheckLayer(layerName: string) returns (ok: bool)
      requires Valid()
      modifies layers
      ensures ok <==> Listed(old(layers[..]), layerName) || HasFreeUserSlot(old(layers[..]))
      ensures layers[..] == WithLayer(old(layers[..]), layerName)
    {
      var listed := LayerExists(layerName);
      if listed {
        return true;
      }
      var present := PropertyExists(layers[..], 0, SearchedLayers, layerName);
      if !present {
        var i, j := FirstUserLayer, SearchedLayers;
        while i < j
          invariant FirstUserLayer <= i <= j
          invariant forall k :: FirstUserLayer <= k < i ==> layers[k] != ""
        {
          if layers[i] == "" {
            assert i == FirstFreeUserSlot(layers[..]);
            layers[i] := layerName;
            return true;
          }
          i := i + 1;
        }
        assert FirstFreeUserSlot(layers[..]) == SearchedLayers;
      }
      return false;
    }

    /** NewLayer's guard `name != null || name != ""` always holds, so it always runs CheckLayer. */
    method NewLayer(name: string) returns (r: string)
      requires Valid()
      modifies layers
      ensures r == name
      ensures layers[..] == WithLayer(old(layers[..]), name)
    {
      var _ := CheckLayer(name);
      r := name;
    }

    /** Blanks the first slot (of all 32) that holds the name. */
    method RemoveLayer(layerName: string) returns (removed: bool)
      requires Valid()
      modifies layers
      ensures removed <==> layerName in old(layers[..])
      ensures layers[..] == WithoutLayer(old(layers[..]), layerName)
    {
      var present := PropertyExists(layers[..], 0, layers.Length, layerName);
      assert layers[..] == layers[..][0..layers.Length];
      if present {
        var i, j := 0, layers.Length;
        while i < j
          invariant 0 <= i <= j == layers.Length
          invariant layers[..] == old(layers[..])
          invariant layerName !in layers[..i] && layerName in layers[i..]
        {
          if layers[i] == layerName {
            assert IndexOf(layers[..], layerName) == i by {
              assert forall k :: 0 <= k < i ==> layers[..i][k] == layers[k];
            }
            layers[i] := "";
            return true;
          }
          assert layers[..i + 1] == layers[..i] + [layers[i]];
          assert layers[i..] == [layers[i]] + layers[i + 1..];
          i := i + 1;
        }
      }
      return false;
    }

    /** The four CheckLayer calls Check makes once the user has confirmed. */
    method AddRequiredLayers()
      requires Valid()
      modifies layers
      ensures layers[..] == WithLayers(old(layers[..]), RequiredLayers)
    {
      ghost var s0 := layers[..];
      var _ := CheckLayer(RequiredLayers[0]);
      var _ := CheckLayer(RequiredLayers[1]);
      var _ := CheckLayer(RequiredLayers[2]);
      var _ := CheckLayer(RequiredLayers[3]);
      assert RequiredLayers[1..][1..][1..][1..] == [];
      assert layers[..] == WithLayers(s0, RequiredLayers);
    }

    /** The installer's first check: it reports which of the four RCC layers are missing
        (the missingLayers array, None standing for C#'s null entry) and, when one is missing
        and the user confirms the dialog, runs CheckLayer on all four. */
    method Check(addConfirmed: bool) returns (missing: seq<Option<string>>)
      requires Valid()
      modifies layers
      ensures |missing| == |RequiredLayers|
      ensures forall k :: 0 <= k < |RequiredLayers| ==>
                (missing[k] == None <==> Listed(old(layers[..]), RequiredLayers[k]))
                && (missing[k] != None ==> missing[k] == Some(RequiredLayers[k]))
      ensures addConfirmed && (exists k :: 0 <= k < |missing| && missing[k] != None) ==>
                layers[..] == WithLayers(old(layers[..]), RequiredLayers)
      ensures (!addConfirmed || forall k :: 0 <= k < |missing| ==> missing[k] == None) ==>
                layers[..] == old(layers[..])
      ensures addConfirmed ==> forall k :: 0 <= k < |RequiredLayers| ==>
                Listed(layers[..], RequiredLayers[k]) || !HasFreeUserSlot(layers[..])
      ensures forall i :: 0 <= i < LayerCount && layers[i] != old(layers[i]) ==>
                FirstUserLayer <= i < SearchedLayers && old(layers[i]) == "" && layers[i] in RequiredLayers
    {
      var vehicle := LayerExists(RequiredLayers[0]);
      var wheelCollider := LayerExists(RequiredLayers[1]);
      var detachablePart := LayerExists(RequiredLayers[2]);
      var prop := LayerExists(RequiredLayers[3]);
      missing := [
        if vehicle then None else Some(RequiredLayers[0]),
        if wheelCollider then None else Some(RequiredLayers[1]),
        if detachablePart then None else Some(RequiredLayers[2]),
        if prop then None else Some(RequiredLayers[3])
      ];
      ghost var before := layers[..];
      if (!vehicle || !wheelCollider || !detachablePart || !prop) && addConfirmed {
        AddRequiredLayers();
        WithLayersSettles(before, RequiredLayers);
        WithLayersFillsOnlyEmpty(before, RequiredLayers);
      }
    }
  }
}
