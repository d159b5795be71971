/**
 * App widget wrappers: each `.the-app-wrapper.loading` container is watched
 * until recognisable widget content appears inside it, or until a 3000 ms
 * fallback fires, and then moves from `loading` to `loaded` exactly once.
 */
module AppWrappers {
  import opened Strings

  /** A descendant element of the wrapper: its class tokens and its id. */
  datatype Node = Node(classes: seq<string>, id: string)

  /** `.yotpo-widget-instance, #infiniteoptions-container, [class*="app-"], [id*="app-"]`. */
  predicate IsAppContent(n: Node)
  {
    "yotpo-widget-instance" in n.classes ||
    n.id == "infiniteoptions-container" ||
    (exists c | c in n.classes :: Contains(c, "app-")) ||
    Contains(n.id, "app-")
  }

  /** `wrapper.querySelector(...)` finds a match among the descendants. */
  function HasAppContent(descendants: seq<Node>): (r: bool)
    ensures r <==> exists i :: 0 <= i < |descendants| && IsAppContent(descendants[i])
    decreases |descendants|
  {
    if descendants == [] then false
    else IsAppContent(descendants[0]) || HasAppContent(descendants[1..])
  }

  datatype MutationKind = ChildList | Attributes | CharacterData

  /** One record handed to the observer: its kind and how many nodes it added. */
  datatype MutationRecord = MutationRecord(kind: MutationKind, addedNodes: nat)

  /** A record that can signal new content: a child-list change that added nodes. */
  predicate AddsNodes(m: MutationRecord)
  {
    m.kind == ChildList && m.addedNodes > 0
  }

  /**
   * One wrapper with its class flags and whether its content observer is still
   * connected. `releases` counts the `loading` to `loaded` transitions.
   */
  class AppWrapper {
    var loading: bool
    var loaded: bool
    var observing: bool
    ghost var releases: nat

    /** Still loading and observed, or released exactly once and no longer observed. */
    ghost predicate Valid()
      reads this
    {
      (loading && observing && !loaded && releases == 0) ||
      (!loading && loaded && !observing && releases == 1)
    }

    /** A wrapper found with the `loading` class; its observer starts at once. */
    constructor ()
      ensures Valid() && loading && observing && !loaded && releases == 0
    {
      loading := true;
      loaded := false;
      observing := true;
      releases := 0;
    }

    /** The observer callback for a batch of records, with the wrapper's descendants at that moment. */
    method OnMutations(records: seq<MutationRecord>, descendants: seq<Node>)
      requires Valid() && observing
      modifies this
      ensures Valid()
      ensures (exists k :: 0 <= k < |records| && AddsNodes(records[k])) && HasAppContent(descendants) ==>
        !loading && loaded && !observing && releases == 1
      ensures !((exists k :: 0 <= k < |records| && AddsNodes(records[k])) && HasAppContent(descendants)) ==>
        loading && loaded == old(loaded) && observing && releases == 0
    {
      var i := 0;
      while i < |records|
        invariant 0 <= i <= |records|
        invariant Valid()
        invariant (exists k :: 0 <= k < i && AddsNodes(records[k])) && HasAppContent(descendants) ==>
          !loading && loaded && !observing && releases == 1
        invariant !((exists k :: 0 <= k < i && AddsNodes(records[k])) && HasAppContent(descendants)) ==>
          loading && observing && !loaded && releases == 0
      {
        if AddsNodes(records[i]) {
          var hasContent := HasAppContent(descendants);
          if hasContent {
            if loading {
              releases := releases + 1;
            }
            loading := false;
            loaded := true;
            observing := false;
          }
        }
        i := i + 1;
      }
    }

    /** The 3000 ms fallback timer: release the wrapper only if it is still loading. */
    method OnFallbackTimeout()
      requires Valid()
      modifies this
      ensures Valid() && !loading && loaded && !observing && releases == 1
      ensures !old(loading) ==> releases == old(releases)
    {
      if loading {
        loading := false;
        loaded := true;
        observing := false;
        releases := releases + 1;
      }
    }
  }
}
