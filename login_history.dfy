/**
 * The login history page of the web client: browser and operating system read off the
 * user agent, the name and username shown for an entry, and the number of pages.
 */
module LoginHistory {
  import opened Common
  import opened Text

  /** `getBrowserName`: the first of Chrome, Firefox, Safari, Edge the agent mentions. */
  function BrowserName(ua: string): (r: string)
    ensures r in {"Chrome", "Firefox", "Safari", "Edge", "Unknown"}
    ensures r == "Unknown" <==> !Contains(ua, "Chrome") && !Contains(ua, "Firefox") && !Contains(ua, "Safari") && !Contains(ua, "Edge")
    ensures r != "Unknown" ==> Contains(ua, r)
  {
    if Contains(ua, "Chrome") then "Chrome"
    else if Contains(ua, "Firefox") then "Firefox"
    else if Contains(ua, "Safari") then "Safari"
    else if Contains(ua, "Edge") then "Edge"
    else "Unknown"
  }

  /** `getOSName`: the first of Windows, Mac (shown as macOS), Linux, Android, iOS the agent mentions. */
  function OSName(ua: string): (r: string)
    ensures r in {"Windows", "macOS", "Linux", "Android", "iOS", "Unknown"}
    ensures r == "macOS" ==> Contains(ua, "Mac")
    ensures r != "Unknown" && r != "macOS" ==> Contains(ua, r)
  {
    if Contains(ua, "Windows") then "Windows"
    else if Contains(ua, "Mac") then "macOS"
    else if Contains(ua, "Linux") then "Linux"
    else if Contains(ua, "Android") then "Android"
    else if Contains(ua, "iOS") then "iOS"
    else "Unknown"
  }

  /**
   * First match wins: an agent naming Chrome is Chrome whatever else it names (an Edge agent
   * that also names Chrome among them), an agent naming Linux is never Android, and one
   * naming Mac is never iOS.
   */
  lemma FirstMatchWins(a: string, b: string)
    ensures BrowserName(a + "Chrome" + b) == "Chrome"
    ensures OSName(a + "Linux" + b) != "Android"
    ensures OSName(a + "Mac" + b) != "iOS"
  {
    ContainsAppend(a, "Chrome", b);
    ContainsAppend(a, "Linux", b);
    ContainsAppend(a, "Mac", b);
  }

  /** The user object nested in an entry, with its optional fields. */
  datatype UserInfo = UserInfo(username: Option<string>, fullName: Option<string>)

  /** An entry of the history, with the optional name fields the server may send. */
  datatype Entry = Entry(user: Option<UserInfo>, userName: Option<string>, username: Option<string>)

  /** A truthy value: present and not empty. */
  predicate Present(v: Option<string>)
  {
    v.Some? && v.value != ""
  }

  /** The first present value, or "N/A". */
  function FirstPresent(vs: seq<Option<string>>): (r: string)
    ensures (forall i :: 0 <= i < |vs| ==> !Present(vs[i])) ==> r == "N/A"
    ensures forall i :: 0 <= i < |vs| && Present(vs[i]) && (forall j :: 0 <= j < i ==> !Present(vs[j])) ==> r == vs[i].value
  {
    if vs == [] then "N/A"
    else if Present(vs[0]) then vs[0].value
    else
      assert forall i :: 1 <= i < |vs| ==> vs[i] == vs[1..][i - 1];
      FirstPresent(vs[1..])
  }

  function NestedUsername(e: Entry): Option<string>
  {
    if e.user.Some? then e.user.value.username else None
  }

  function NestedFullName(e: Entry): Option<string>
  {
    if e.user.Some? then e.user.value.fullName else None
  }

  /** `getUserDisplayName`: full name, then username of the user, then `user_name`, then `username`. */
  function DisplayName(e: Entry): string
  {
    FirstPresent([NestedFullName(e), NestedUsername(e), e.userName, e.username])
  }

  /** `getUserUsername`: username of the user, then `user_name`, then `username`. */
  function Username(e: Entry): string
  {
    FirstPresent([NestedUsername(e), e.userName, e.username])
  }

  /**
   * The two columns agree except where a full name is known: without one the display name is
   * the username shown; with one it is that full name.
   */
  lemma NameColumns(e: Entry)
    ensures !Present(NestedFullName(e)) ==> DisplayName(e) == Username(e)
    ensures Present(NestedFullName(e)) ==> DisplayName(e) == NestedFullName(e).value
    ensures !Present(NestedUsername(e)) && !Present(e.userName) && !Present(e.username) ==> Username(e) == "N/A"
    ensures Present(NestedUsername(e)) ==> Username(e) == NestedUsername(e).value
  {
    var vs := [NestedFullName(e), NestedUsername(e), e.userName, e.username];
    assert vs[1..] == [NestedUsername(e), e.userName, e.username];
  }

  /** `Math.ceil((count || 0) / 10)`: pages of ten entries. */
  function PageCount(count: Option<nat>): (pages: nat)
    ensures var c := if count.Some? then count.value else 0;
      pages * 10 >= c && (c > 0 ==> (pages - 1) * 10 < c) && (c == 0 ==> pages == 0)
  {
    var c := if count.Some? then count.value else 0;
    (c + 9) / 10
  }
}
