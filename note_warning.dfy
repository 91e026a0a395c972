/**
 * `NoteWarningController`: decides whether a note card is covered by a
 * content warning, from reports by followed authors, the note author's place
 * in the user's network, and the user's preferences.
 */
module NoteWarning {
  import opened Wrappers
  import opened NostrTypes

  /** The rule `computeShowWarning` implements: never once the user has
      dismissed the warning; otherwise warn when report warnings are enabled
      and the note, but not its author, has followed reports, or when the
      out-of-network warning applies. */
  function WarningDecision(
    userHidWarning: bool, showReportWarnings: bool,
    noteReports: seq<Event>, authorReports: seq<Event>,
    shouldHideOutOfNetwork: bool, showOutOfNetworkWarning: bool, outOfNetwork: bool): (r: bool)
    ensures userHidWarning ==> !r
    ensures !userHidWarning && showReportWarnings && |noteReports| > 0 && |authorReports| == 0 ==> r
    ensures !userHidWarning && !(showReportWarnings && |noteReports| > 0 && |authorReports| == 0) ==>
      (r <==> shouldHideOutOfNetwork && showOutOfNetworkWarning && outOfNetwork)
  {
    var reportWarning := showReportWarnings && |noteReports| > 0 && |authorReports| == 0;
    var networkWarning := shouldHideOutOfNetwork && showOutOfNetworkWarning && outOfNetwork;
    !userHidWarning && (reportWarning || networkWarning)
  }

  /** With report warnings enabled, reports against the author suppress the
      report warning that the note's own reports would raise. */
  lemma AuthorReportsSuppressNoteReportWarning(
    noteReports: seq<Event>, authorReports: seq<Event>, shouldHideOutOfNetwork: bool,
    showOutOfNetworkWarning: bool, outOfNetwork: bool)
    requires |authorReports| > 0
    ensures WarningDecision(false, true, noteReports, authorReports,
                            shouldHideOutOfNetwork, showOutOfNetworkWarning, outOfNetwork)
        == (shouldHideOutOfNetwork && showOutOfNetworkWarning && outOfNetwork)
  {
  }

  /** The reports whose author the user follows, in their original order. */
  function FromFollowedAuthors(events: seq<Event>, graph: SocialGraph): (kept: seq<Event>)
    ensures |kept| <= |events|
  {
    if events == [] then []
    else (if graph.follows(AuthorKey(events[0])) then [events[0]] else [])
         + FromFollowedAuthors(events[1..], graph)
  }

  /** `a` is `b` with some elements left out, order kept. */
  predicate IsSubsequence(a: seq<Event>, b: seq<Event>) {
    if a == [] then true
    else if b == [] then false
    else if a[0] == b[0] then IsSubsequence(a[1..], b[1..])
    else IsSubsequence(a, b[1..])
  }

  /** The kept reports are exactly the input reports by followed authors. */
  lemma {:induction false} FromFollowedAuthorsMembers(events: seq<Event>, graph: SocialGraph)
    ensures forall e :: e in FromFollowedAuthors(events, graph) <==>
                        e in events && graph.follows(AuthorKey(e))
  {
    if events != [] {
      FromFollowedAuthorsMembers(events[1..], graph);
      assert events == [events[0]] + events[1..];
    }
  }

  /** The kept reports keep their original order. */
  lemma {:induction false} FromFollowedAuthorsIsSubsequence(events: seq<Event>, graph: SocialGraph)
    ensures IsSubsequence(FromFollowedAuthors(events, graph), events)
  {
    if events != [] {
      var rest := FromFollowedAuthors(events[1..], graph);
      FromFollowedAuthorsIsSubsequence(events[1..], graph);
      if graph.follows(AuthorKey(events[0])) {
        assert ([events[0]] + rest)[1..] == rest;
      } else if rest != [] {
        assert FromFollowedAuthors(events, graph) == [] + rest == rest;
        FromFollowedAuthorsMembers(events[1..], graph);
        assert rest[0] in rest;
        assert rest[0] != events[0];
      }
    }
  }

  /** The `for event in events ?? [] where follows(...)` loop that filters a
      batch of fetched reports. */
  method FollowedReports(events: Option<seq<Event>>, graph: SocialGraph) returns (r: seq<Event>)
    ensures r == FromFollowedAuthors(events.GetOr([]), graph)
    ensures forall e :: e in r <==> e in events.GetOr([]) && graph.follows(AuthorKey(e))
    ensures IsSubsequence(r, events.GetOr([]))
  {
    var all := events.GetOr([]);
    r := [];
    var i := 0;
    while i < |all|
      invariant 0 <= i <= |all|
      invariant r + FromFollowedAuthors(all[i..], graph) == FromFollowedAuthors(all, graph)
    {
      assert all[i..] == [all[i]] + all[i + 1..];
      if graph.follows(AuthorKey(all[i])) {
        r := r + [all[i]];
      }
      i := i + 1;
    }
    assert all[i..] == [];
    FromFollowedAuthorsMembers(all, graph);
    FromFollowedAuthorsIsSubsequence(all, graph);
  }

  /** `note?.author?.hexadecimalPublicKey`. */
  function NoteAuthorKey(note: Option<Event>): (key: Option<HexString>)
    ensures note.None? ==> key.None?
    ensures note.Some? ==> key == AuthorKey(note.value)
  {
    match note
    case None => None
    case Some(e) => AuthorKey(e)
  }

  /** A stored preference read with `as? Bool ?? true`: missing means enabled. */
  function Preference(stored: Option<bool>): (r: bool)
    ensures stored.None? ==> r
    ensures stored.Some? ==> r == stored.value
  {
    stored.GetOr(true)
  }

  class NoteWarningController {
    var showWarning: bool
    var userHidWarning: bool
    var outOfNetwork: bool
    var note: Option<Event>
    var shouldHideOutOfNetwork: bool
    var showReportWarnings: bool
    var showOutOfNetworkWarning: bool
    var noteReports: seq<Event>
    var authorReports: seq<Event>

    /** The decision for the current flags and reports. */
    function Decision(): (warn: bool)
      reads this
    {
      WarningDecision(userHidWarning, showReportWarnings, noteReports, authorReports,
                      shouldHideOutOfNetwork, showOutOfNetworkWarning, outOfNetwork)
    }

    /** `showWarning` is up to date with the current flags and reports. */
    ghost predicate ShowsDecision()
      reads this
    {
      showWarning == Decision()
    }

    /** `init`: default field values and the two stored preferences. */
    constructor (storedShowReportWarnings: Option<bool>, storedShowOutOfNetworkWarning: Option<bool>)
      ensures !showWarning && !userHidWarning && !outOfNetwork && note == None
      ensures shouldHideOutOfNetwork && noteReports == [] && authorReports == []
      ensures showReportWarnings == Preference(storedShowReportWarnings)
      ensures showOutOfNetworkWarning == Preference(storedShowOutOfNetworkWarning)
      ensures ShowsDecision()
    {
      showWarning := false;
      userHidWarning := false;
      outOfNetwork := false;
      note := None;
      shouldHideOutOfNetwork := true;
      noteReports := [];
      authorReports := [];
      showReportWarnings := Preference(storedShowReportWarnings);
      showOutOfNetworkWarning := Preference(storedShowOutOfNetworkWarning);
    }

    /** `computeShowWarning`: writes `showWarning` and nothing else. */
    method ComputeShowWarning()
      modifies this`showWarning
      ensures showWarning == Decision()
      ensures userHidWarning ==> !showWarning
      ensures !userHidWarning && showReportWarnings && noteReports != [] && authorReports == []
              ==> showWarning
    {
      if userHidWarning {
        showWarning := false;
      } else if showReportWarnings && !(noteReports == [] || !(authorReports == [])) {
        showWarning := true;
      } else if shouldHideOutOfNetwork && showOutOfNetworkWarning && outOfNetwork {
        showWarning := true;
      } else {
        showWarning := false;
      }
    }

    /** Assigning `userHidWarning`; its `didSet` recomputes the warning. */
    method SetUserHidWarning(value: bool)
      modifies this`userHidWarning, this`showWarning
      ensures userHidWarning == value && ShowsDecision()
      ensures value ==> !showWarning
    {
      userHidWarning := value;
      ComputeShowWarning();
    }

    /** Assigning `noteReports`; its `didSet` recomputes the warning. */
    method SetNoteReports(reports: seq<Event>)
      modifies this`noteReports, this`showWarning
      ensures noteReports == reports && ShowsDecision()
    {
      noteReports := reports;
      ComputeShowWarning();
    }

    /** Assigning `authorReports`; its `didSet` recomputes the warning. */
    method SetAuthorReports(reports: seq<Event>)
      modifies this`authorReports, this`showWarning
      ensures authorReports == reports && ShowsDecision()
    {
      authorReports := reports;
      ComputeShowWarning();
    }

    /** A fetched batch of reports about the note: only those by followed
        authors become `noteReports`. */
    method ReceiveNoteReports(events: Option<seq<Event>>, graph: SocialGraph)
      modifies this`noteReports, this`showWarning
      ensures noteReports == FromFollowedAuthors(events.GetOr([]), graph)
      ensures ShowsDecision()
    {
      var followed := FollowedReports(events, graph);
      SetNoteReports(followed);
    }

    /** A fetched batch of reports about the note's author: only those by
        followed authors become `authorReports`. */
    method ReceiveAuthorReports(events: Option<seq<Event>>, graph: SocialGraph)
      modifies this`authorReports, this`showWarning
      ensures authorReports == FromFollowedAuthors(events.GetOr([]), graph)
      ensures ShowsDecision()
    {
      var followed := FollowedReports(events, graph);
      SetAuthorReports(followed);
    }

    /** Assigning `note`; its `didSet` only publishes the new note. */
    method SetNote(value: Option<Event>)
      modifies this`note
      ensures note == value
    {
      note := value;
    }

    /** Assigning `shouldHideOutOfNetwork`, which has no observer. */
    method SetShouldHideOutOfNetwork(value: bool)
      modifies this`shouldHideOutOfNetwork
      ensures shouldHideOutOfNetwork == value
    {
      shouldHideOutOfNetwork := value;
    }

    /** The note subscriber that sets `outOfNetwork`; it does not recompute
        the warning. */
    method UpdateOutOfNetwork(graph: SocialGraph)
      modifies this`outOfNetwork
      ensures NoteAuthorKey(note).Some? ==> outOfNetwork == !graph.contains(NoteAuthorKey(note).value)
      ensures NoteAuthorKey(note).None? ==> !outOfNetwork
    {
      var key := NoteAuthorKey(note);
      if key.Some? {
        outOfNetwork := !graph.contains(key.value);
      } else {
        outOfNetwork := false;
      }
    }

    /** The user-defaults observer that rereads both preferences; it does not
        recompute the warning either. */
    method ReloadPreferences(storedShowReportWarnings: Option<bool>, storedShowOutOfNetworkWarning: Option<bool>)
      modifies this`showReportWarnings, this`showOutOfNetworkWarning
      ensures showReportWarnings == Preference(storedShowReportWarnings)
      ensures showOutOfNetworkWarning == Preference(storedShowOutOfNetworkWarning)
    {
      showReportWarnings := Preference(storedShowReportWarnings);
      showOutOfNetworkWarning := Preference(storedShowOutOfNetworkWarning);
    }
  }
}
