/** The page frame: whether the navbar and the footer are shown for a path.
    The navbar test is an exact match against its list, the footer test a
    prefix match against its own. */
module Layout {

  const HideNavPaths: seq<string> := ["/auth"]
  const HideFooterPaths: seq<string> := ["/auth", "/track", "/admin"]

  /** `s.startsWith(prefix)`. */
  predicate StartsWith(s: string, prefix: string) {
    |prefix| <= |s| && s[..|prefix|] == prefix
  }

  /** What the frame renders around the page. */
  datatype Frame = Frame(navbar: bool, footer: bool, paddedTop: bool, children: bool)

  function FrameFor(path: string): (f: Frame)
    ensures f.navbar <==> path != "/auth"
    ensures f.footer <==> !(StartsWith(path, "/auth") || StartsWith(path, "/track") || StartsWith(path, "/admin"))
    ensures f.paddedTop <==> f.navbar
    ensures f.children
  {
    var navbar := path !in HideNavPaths;
    var footer := !(exists i :: 0 <= i < |HideFooterPaths| && StartsWith(path, HideFooterPaths[i]));
    assert HideFooterPaths[0] == "/auth" && HideFooterPaths[1] == "/track" && HideFooterPaths[2] == "/admin";
    Frame(navbar, footer, navbar, true)
  }

  /** Below '/auth' the navbar comes back but the footer stays hidden. */
  lemma AuthSubpathKeepsNavbar()
    ensures FrameFor("/auth/x").navbar && !FrameFor("/auth/x").footer
  {
    assert "/auth/x"[..5] == "/auth";
  }

  /** A path that merely starts with '/track' loses the footer too. */
  lemma TrackingLosesFooter()
    ensures FrameFor("/tracking").navbar && !FrameFor("/tracking").footer
  {
    assert "/tracking"[..6] == "/track";
  }

  /** The navbar is hidden on a single path, where the footer is hidden too. */
  lemma NavbarHiddenMeansFooterHidden(path: string)
    requires !FrameFor(path).navbar
    ensures !FrameFor(path).footer
  {
    assert path[..5] == "/auth";
  }
}
