/**
 * The home page's form: the URL field, the loading flag, and the navigations to the
 * results page it has asked the router for.
 */
module HomePage {
  import opened UrlInput

  class Home {
    var url: string
    var loading: bool
    /** The normalised URL of every navigation to the results page, in order. */
    var navigations: seq<string>

    constructor ()
      ensures url == "" && !loading && navigations == []
    {
      url := "";
      loading := false;
      navigations := [];
    }

    /** Typing into the field replaces its text. */
    method SetUrl(text: string)
      modifies this
      ensures url == text && loading == old(loading) && navigations == old(navigations)
    {
      url := text;
    }

    /**
     * Pressing Enter or the button: a blank field does nothing; otherwise the page
     * starts loading and navigates to the results page for the normalised URL.
     */
    method GoToResults()
      modifies this
      ensures url == old(url)
      ensures NormalizeUrl(old(url)) == "" ==> loading == old(loading) && navigations == old(navigations)
      ensures NormalizeUrl(old(url)) != "" ==>
        && loading
        && navigations == old(navigations) + [NormalizeUrl(old(url))]
        && HasHttpScheme(navigations[|navigations| - 1])
    {
      var normalized := NormalizeUrl(url);
      if normalized == "" {
        return;
      }
      loading := true;
      navigations := navigations + [normalized];
    }
  }
}
