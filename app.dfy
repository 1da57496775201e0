// The page host: a single `loading` flag, cleared by the splash loader's
// completion callback, decides whether the page content is shown and
// interactive.
module App {

  /** Classes of the content wrapper while the loader is still running. */
  const HiddenClasses: seq<string> := ["opacity-0", "pointer-events-none"]

  /** Classes of the content wrapper once loading is over. */
  const ShownClasses: seq<string> := ["opacity-100", "transition-opacity", "duration-700"]

  class App {
    var loading: bool

    /** The page starts in the loading state. */
    constructor ()
      ensures loading
    {
      loading := true;
    }

    /** The callback handed to the loader: the only update of `loading`,
        and it can only clear it. */
    method OnComplete()
      modifies this
      ensures !loading
    {
      loading := false;
    }

    /** Class list of the content wrapper: hidden and unclickable while
        loading, fully opaque afterwards. */
    function ContentClasses(): (r: seq<string>)
      reads this
      ensures "pointer-events-none" in r <==> loading
      ensures "opacity-0" in r <==> loading
      ensures "opacity-100" in r <==> !loading
    {
      if loading then HiddenClasses else ShownClasses
    }
  }
}
