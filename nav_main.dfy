/**
 * Which sidebar entries of the web client are highlighted for the current location.
 */
module NavMain {
  import opened Common
  import opened Text

  /**
   * `checkIsActive`: no url is never active; a url with a query must equal path plus query;
   * any other url is active on the same path or, except for `/` and `/dashboard`, on a path
   * below it.
   */
  predicate IsActive(url: Option<string>, pathname: string, search: string)
  {
    && url.Some? && url.value != ""
    && if '?' in url.value then pathname + search == url.value
       else pathname == url.value || (url.value != "/" && url.value != "/dashboard" && StartsWith(pathname, url.value + "/"))
  }

  /** A group is highlighted when some child is; a group without children never is. */
  predicate GroupActive(children: Option<seq<string>>, pathname: string, search: string)
  {
    children.Some? && exists i :: 0 <= i < |children.value| && IsActive(Some(children.value[i]), pathname, search)
  }

  /**
   * A path below an entry activates it, except for `/` and `/dashboard`, which are active
   * only on their own path; a query entry needs the exact path and query.
   */
  lemma ActiveMeaning(url: string, pathname: string, search: string, rest: string)
    requires url != "" && '?' !in url
    ensures IsActive(Some(url), url, search)
    ensures url != "/" && url != "/dashboard" ==> IsActive(Some(url), url + "/" + rest, search)
    ensures (url == "/" || url == "/dashboard") ==> (IsActive(Some(url), pathname, search) <==> pathname == url)
  {
    assert (url + "/" + rest)[..|url + "/"|] == url + "/";
  }

  /** A sibling path that only shares a prefix, such as `/customers-x` for `/customers`, is not below it. */
  lemma NoSiblingMatch(url: string, suffix: string, search: string)
    requires url != "" && '?' !in url && suffix != [] && suffix[0] != '/'
    ensures !IsActive(Some(url), url + suffix, search)
  {
    assert (url + suffix)[|url|] == suffix[0];
  }

  /** A query entry is active exactly at its own path and query. */
  lemma QueryEntryExact(url: string, pathname: string, search: string)
    requires '?' in url
    ensures IsActive(Some(url), pathname, search) <==> pathname + search == url
  {
  }

  /** A group is highlighted exactly when one of its children is. */
  lemma GroupMeaning(children: seq<string>, k: nat, pathname: string, search: string)
    requires k < |children| && IsActive(Some(children[k]), pathname, search)
    ensures GroupActive(Some(children), pathname, search)
    ensures !GroupActive(None, pathname, search)
  {
  }
}
