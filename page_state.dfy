/**
 * The small pieces of map-page state that are updated by expressions
 * rather than step by step: the active bottom panel, the saved-places
 * list and the traffic switch.
 */
module PageState {
  import opened Schemas

  /** The panels the bottom navigation can open; `None` is "no panel". */
  datatype Panel = Explore | Analytics | Saved | Chat

  /** The base-map styles the style control offers. */
  datatype MapStyle = Standard | SatelliteStreets | Streets | Dark | Light

  /**
   * The panel shown after the user picks `requested`: picking the panel
   * that is already open closes it, anything else opens what was picked.
   */
  function PanelChange(active: Option<Panel>, requested: Option<Panel>): (next: Option<Panel>)
    ensures next == None <==> active == requested || requested == None
    ensures next != None ==> next == requested && next != active
  {
    if active == requested then None else requested
  }

  /** Picking the same panel twice in a row ends with no panel, unless it was already open. */
  lemma PanelChangeTwice(active: Option<Panel>, p: Panel)
    ensures PanelChange(PanelChange(active, Some(p)), Some(p)) == if active == Some(p) then Some(p) else None
  {
  }

  /** A place counts as saved when some saved place has the same name. */
  predicate IsSaved(saved: seq<Place>, name: string)
  {
    exists i :: 0 <= i < |saved| && saved[i].name == name
  }

  /** The saved list with every place called `name` filtered out, the others in order. */
  function WithoutName(saved: seq<Place>, name: string): (r: seq<Place>)
    ensures !IsSaved(r, name)
    ensures |r| <= |saved|
  {
    if saved == [] then []
    else (if saved[0].name == name then [] else [saved[0]]) + WithoutName(saved[1..], name)
  }

  /** Filtering distributes over concatenation, so the kept places stay in their order. */
  lemma {:induction false} WithoutNameConcat(s: seq<Place>, t: seq<Place>, name: string)
    ensures WithoutName(s + t, name) == WithoutName(s, name) + WithoutName(t, name)
  {
    if s == [] {
      assert s + t == t;
    } else {
      assert (s + t)[1..] == s[1..] + t;
      WithoutNameConcat(s[1..], t, name);
    }
  }

  /** The filter keeps exactly the places with another name. */
  lemma {:induction false} WithoutNameMembers(s: seq<Place>, name: string, q: Place)
    ensures q in WithoutName(s, name) <==> q in s && q.name != name
  {
    if s != [] {
      WithoutNameMembers(s[1..], name, q);
      assert s == [s[0]] + s[1..];
    }
  }

  /** Filtering out a name nobody has changes nothing. */
  lemma {:induction false} WithoutAbsentName(s: seq<Place>, name: string)
    requires !IsSaved(s, name)
    ensures WithoutName(s, name) == s
  {
    if s != [] {
      assert !IsSaved(s[1..], name) by {
        forall i | 0 <= i < |s[1..]| ensures s[1..][i].name != name {
          assert s[1..][i] == s[i + 1];
        }
      }
      WithoutAbsentName(s[1..], name);
    }
  }

  /**
   * The saved-place toggle: a place whose name is already saved is
   * unsaved (every place of that name goes), any other place is appended.
   */
  function ToggleSaved(saved: seq<Place>, place: Place): (r: seq<Place>)
    ensures IsSaved(r, place.name) <==> !IsSaved(saved, place.name)
    ensures WithoutName(r, place.name) == WithoutName(saved, place.name)
    ensures !IsSaved(saved, place.name) ==> r == saved + [place]
    ensures IsSaved(saved, place.name) ==> |r| < |saved|
  {
    if IsSaved(saved, place.name) then
      var r := WithoutName(saved, place.name);
      WithoutAbsentName(r, place.name);
      WithoutNameShrinks(saved, place.name);
      r
    else
      WithoutNameConcat(saved, [place], place.name);
      assert IsSaved(saved + [place], place.name) by {
        assert (saved + [place])[|saved|] == place;
      }
      saved + [place]
  }

  /** Filtering out a name that is present drops at least one place. */
  lemma {:induction false} WithoutNameShrinks(s: seq<Place>, name: string)
    requires IsSaved(s, name)
    ensures |WithoutName(s, name)| < |s|
  {
    if s[0].name != name {
      assert IsSaved(s[1..], name) by {
        var i :| 0 <= i < |s| && s[i].name == name;
        assert s[1..][i - 1] == s[i];
      }
      WithoutNameShrinks(s[1..], name);
    }
  }

  /**
   * Toggling the same place twice: an unsaved place leaves the list as it
   * was; a saved one ends up as a single copy at the end.
   */
  lemma ToggleSavedTwice(saved: seq<Place>, place: Place)
    ensures ToggleSaved(ToggleSaved(saved, place), place) ==
            if IsSaved(saved, place.name) then WithoutName(saved, place.name) + [place] else saved
  {
    if !IsSaved(saved, place.name) {
      WithoutNameConcat(saved, [place], place.name);
      WithoutAbsentName(saved, place.name);
    }
  }

  /** Traffic can only be shown on these two styles. */
  predicate SupportsTraffic(style: MapStyle)
  {
    style == Standard || style == Streets
  }

  /** The outcome of pressing the traffic button: the new switch and whether a notice is shown. */
  datatype TrafficToggle = TrafficToggle(showTraffic: bool, notice: bool)

  /** The traffic button: flips the switch on a supporting style, else only shows a notice. */
  function ToggleTraffic(style: MapStyle, showTraffic: bool): (r: TrafficToggle)
    ensures r.notice <==> !SupportsTraffic(style)
    ensures r.showTraffic != showTraffic <==> SupportsTraffic(style)
  {
    if !SupportsTraffic(style) then TrafficToggle(showTraffic, true)
    else TrafficToggle(!showTraffic, false)
  }

  /** Pressing the traffic button twice on the same style restores the switch. */
  lemma ToggleTrafficTwice(style: MapStyle, showTraffic: bool)
    ensures ToggleTraffic(style, ToggleTraffic(style, showTraffic).showTraffic).showTraffic == showTraffic
  {
  }
}
