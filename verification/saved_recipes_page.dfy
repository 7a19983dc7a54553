/** The saved-recipes page: fetching the list through the front end's
    `/api/get-saved-recipes`, the single expanded recipe, the per-recipe
    collapsible sections of the mobile layout and the video carousel's
    arrow flags. */
module SavedRecipesPage {
  import opened Wrappers
  import opened Json
  import opened Http
  import Text
  import Gateway

  const FetchFallback := "Failed to fetch saved recipes"
  const LoadFallback := "Failed to load saved recipes"

  datatype Listing = Listing(recipes: Json, loading: bool, error: Option<string>)

  /** The page's state on mount. */
  const Initial := Listing(Arr([]), true, None)

  /** The fetch effect, with `reply` the outcome of the request and of
      `response.json()`: a non-OK answer throws with `data.error` or the
      first fallback, and the catch block falls back to the second. */
  function LoadSaved(l: Listing, reply: Reply): (r: Listing)
    ensures !r.loading
    ensures reply.Ok() ==> r == Listing(reply.body, false, l.error)
    ensures reply.Answered? && !reply.Ok() && reply.body.Obj? ==>
      r == l.(loading := false,
              error := Some(Text.OrElse(ErrorMessage(Lookup(reply.body.members, "error"), FetchFallback), LoadFallback)))
    ensures reply.Threw? ==> r == l.(loading := false, error := Some(Text.OrElse(reply.message, LoadFallback)))
    ensures !reply.Ok() ==> r.recipes == l.recipes && r.error.Some? && r.error.value != ""
  {
    match reply
    case Threw(m) => l.(loading := false, error := Some(Text.OrElse(m, LoadFallback)))
    case Answered(_, data) =>
      if reply.Ok() then l.(recipes := data, loading := false)
      else
        var message :=
          match Get(data, "error")
          case Failure(m) => m
          case Success(e) => ErrorMessage(e, FetchFallback);
        l.(loading := false, error := Some(Text.OrElse(message, LoadFallback)))
  }

  /** Without the HTTP-only cookie the page shows the gateway's 401 text. */
  lemma LoadWithoutToken(token: Option<string>, backend: Reply)
    requires !HasToken(token)
    ensures var x := Gateway.SavedRecipesRoute(token, backend).response;
      LoadSaved(Initial, Answered(x.status, x.body)).error == Some(Gateway.NoTokenMessage)
  {
  }

  /** `toggleRecipeExpand(id)`; `None` is `null`. */
  function ToggleExpand(expanded: Option<int>, id: int): (r: Option<int>)
    ensures r == Some(id) <==> expanded != Some(id)
    ensures r.None? <==> expanded == Some(id)
    ensures forall k :: k != id ==> r != Some(k)
  {
    if expanded == Some(id) then None else Some(id)
  }

  /** Toggling the open recipe closes it; toggling another one switches to
      it, closing the previous one. */
  lemma ToggleExpandTwice(expanded: Option<int>, id: int)
    ensures expanded.None? || expanded == Some(id) ==>
      ToggleExpand(ToggleExpand(expanded, id), id) == expanded
    ensures expanded.Some? && expanded != Some(id) ==>
      ToggleExpand(ToggleExpand(expanded, id), id).None?
  {
  }

  /** `mobileExpandedSections`: per recipe id, per section name, the flag
      set so far. */
  type Sections = map<int, map<string, bool>>

  /** `mobileExpandedSections[id]?.[section] || false`. */
  function SectionOpen(m: Sections, id: int, section: string): bool {
    id in m && section in m[id] && m[id][section]
  }

  /** `toggleMobileSection(id, section)`. */
  function ToggleSection(m: Sections, id: int, section: string): (r: Sections)
    ensures SectionOpen(r, id, section) == !SectionOpen(m, id, section)
    ensures forall k, s :: (k != id || s != section) ==> SectionOpen(r, k, s) == SectionOpen(m, k, s)
    ensures forall k :: k != id ==> (k in r <==> k in m) && (k in m ==> r[k] == m[k])
    ensures id in r
  {
    var inner := if id in m then m[id] else map[];
    m[id := inner[section := !SectionOpen(m, id, section)]]
  }

  /** Flipping a section twice restores what it reads as. */
  lemma ToggleSectionTwice(m: Sections, id: int, section: string)
    ensures forall k, s :: SectionOpen(ToggleSection(ToggleSection(m, id, section), id, section), k, s)
                        == SectionOpen(m, k, s)
  {
  }

  /** Whether the carousel's left and right arrows may show. */
  datatype ScrollFlags = ScrollFlags(left: bool, right: bool)

  /** The flags of a recipe never scrolled. */
  const DefaultFlags := ScrollFlags(false, true)

  /** The flags computed from the container's geometry after a scroll. */
  function FlagsAt(scrollLeft: int, scrollWidth: int, clientWidth: int): (f: ScrollFlags)
    ensures f.left <==> scrollLeft > 0
    ensures f.right <==> scrollLeft + clientWidth < scrollWidth
  {
    ScrollFlags(scrollLeft > 0, scrollLeft < scrollWidth - clientWidth)
  }

  /** `videoScrollPositions[id] || { left: false, right: true }`. */
  function FlagsOf(positions: map<int, ScrollFlags>, id: int): (f: ScrollFlags)
    ensures id !in positions ==> f == DefaultFlags
  {
    if id in positions then positions[id] else DefaultFlags
  }

  /** A scroll event or the end of a `scrollVideos` delay for recipe `id`. */
  function Scrolled(positions: map<int, ScrollFlags>, id: int, scrollLeft: int, scrollWidth: int, clientWidth: int)
    : (r: map<int, ScrollFlags>)
    ensures FlagsOf(r, id) == FlagsAt(scrollLeft, scrollWidth, clientWidth)
    ensures forall k :: k != id ==> FlagsOf(r, k) == FlagsOf(positions, k)
  {
    positions[id := FlagsAt(scrollLeft, scrollWidth, clientWidth)]
  }

  /** Arrows show only for more than three videos, each under its flag. */
  function Arrows(videoCount: int, f: ScrollFlags): (r: ScrollFlags)
    ensures r.left <==> videoCount > 3 && f.left
    ensures r.right <==> videoCount > 3 && f.right
  {
    if videoCount > 3 then f else ScrollFlags(false, false)
  }

  /** An unscrolled carousel with more than three videos offers only the
      right arrow; at the start of a scroll it never offers the left one. */
  lemma UnscrolledArrows(positions: map<int, ScrollFlags>, id: int, videoCount: int, scrollWidth: int, clientWidth: int)
    requires id !in positions && videoCount > 3
    ensures Arrows(videoCount, FlagsOf(positions, id)) == ScrollFlags(false, true)
    ensures !Arrows(videoCount, FlagsOf(Scrolled(positions, id, 0, scrollWidth, clientWidth), id)).left
  {
  }
}
