/**
 * Choice of the window a notification click focuses or opens (sw.js:114-127).
 */
module Click {
  import opened Wrappers

  /** A window client: its URL and whether it has a `focus` method. */
  datatype Client = Client(url: string, focusable: bool)

  datatype ClickAction = Focus(index: nat) | OpenWindow(url: string) | NoAction

  /** The notification's `data.url` when present and non-empty (truthy), else "/". */
  function TargetUrl(dataUrl: Option<string>): (url: string)
    ensures url != ""
    ensures dataUrl.Some? && dataUrl.value != "" ==> url == dataUrl.value
    ensures dataUrl.None? || dataUrl.value == "" ==> url == "/"
  {
    if dataUrl.Some? && dataUrl.value != "" then dataUrl.value else "/"
  }

  predicate Fits(c: Client, target: string) {
    c.url == target && c.focusable
  }

  /** The first client at or after `from` whose URL equals `target` exactly and that can be focused. */
  function FirstFit(clients: seq<Client>, target: string, from: nat): (r: Option<nat>)
    requires from <= |clients|
    ensures r.Some? ==> from <= r.value < |clients| && Fits(clients[r.value], target)
    ensures r.Some? ==> forall j :: from <= j < r.value ==> !Fits(clients[j], target)
    ensures r.None? ==> forall j :: from <= j < |clients| ==> !Fits(clients[j], target)
    decreases |clients| - from
  {
    if from == |clients| then None
    else if Fits(clients[from], target) then Some(from)
    else FirstFit(clients, target, from + 1)
  }

  /** The click handler's decision: focus the first open window at exactly the target URL,
      otherwise open a new window there when `openWindow` exists, otherwise do nothing. */
  function OnClick(dataUrl: Option<string>, clients: seq<Client>, canOpenWindow: bool): (a: ClickAction)
    ensures a.Focus? ==> a.index < |clients| && Fits(clients[a.index], TargetUrl(dataUrl))
    ensures a.Focus? ==> forall j :: 0 <= j < a.index ==> !Fits(clients[j], TargetUrl(dataUrl))
    ensures a.OpenWindow? <==> canOpenWindow && forall j :: 0 <= j < |clients| ==> !Fits(clients[j], TargetUrl(dataUrl))
    ensures a.OpenWindow? ==> a.url == TargetUrl(dataUrl)
    ensures a.NoAction? <==> !canOpenWindow && forall j :: 0 <= j < |clients| ==> !Fits(clients[j], TargetUrl(dataUrl))
  {
    var target := TargetUrl(dataUrl);
    match FirstFit(clients, target, 0)
    case Some(i) => Focus(i)
    case None => if canOpenWindow then OpenWindow(target) else NoAction
  }

  // ---- The origin target ----

  /** `url` is `base` followed by a path: the next character is '/'. A URL at an origin such as
      "https://host" is the origin followed by a path. */
  predicate Below(url: string, base: string) {
    |url| > |base| && url[..|base|] == base && url[|base|] == '/'
  }

  /** As written: the scheduled notifications carry the origin, which has no path, while a window
      client's URL always has one, so no client is ever focused and a click always opens a new
      window (or does nothing). */
  lemma OriginTargetNeverFocuses(origin: string, clients: seq<Client>, canOpenWindow: bool)
    requires origin != ""
    requires forall j :: 0 <= j < |clients| ==> Below(clients[j].url, origin)
    ensures OnClick(Some(origin), clients, canOpenWindow) == (if canOpenWindow then OpenWindow(origin) else NoAction)
  {
    forall j | 0 <= j < |clients| ensures !Fits(clients[j], origin) {
      assert |clients[j].url| > |origin|;
    }
  }

  /** The evidently intended test of "a window for the app is already open": the client's URL is
      the target itself or lies below it, and the client can be focused. */
  predicate FitsApp(c: Client, target: string) {
    c.focusable && (c.url == target || Below(c.url, target))
  }

  /** The first client at or after `from` that is a window of the app at `target`. */
  function FirstAppClient(clients: seq<Client>, target: string, from: nat): (r: Option<nat>)
    requires from <= |clients|
    ensures r.Some? ==> from <= r.value < |clients| && FitsApp(clients[r.value], target)
    ensures r.Some? ==> forall j :: from <= j < r.value ==> !FitsApp(clients[j], target)
    ensures r.None? ==> forall j :: from <= j < |clients| ==> !FitsApp(clients[j], target)
    decreases |clients| - from
  {
    if from == |clients| then None
    else if FitsApp(clients[from], target) then Some(from)
    else FirstAppClient(clients, target, from + 1)
  }

  /** The corrected click decision: focus the first open window of the app, otherwise open one. */
  function OnAppClick(dataUrl: Option<string>, clients: seq<Client>, canOpenWindow: bool): (a: ClickAction)
    ensures a.Focus? ==> a.index < |clients| && FitsApp(clients[a.index], TargetUrl(dataUrl))
    ensures a.Focus? ==> forall j :: 0 <= j < a.index ==> !FitsApp(clients[j], TargetUrl(dataUrl))
    ensures a.OpenWindow? <==> canOpenWindow && forall j :: 0 <= j < |clients| ==> !FitsApp(clients[j], TargetUrl(dataUrl))
    ensures a.OpenWindow? ==> a.url == TargetUrl(dataUrl)
    ensures a.NoAction? <==> !canOpenWindow && forall j :: 0 <= j < |clients| ==> !FitsApp(clients[j], TargetUrl(dataUrl))
  {
    var target := TargetUrl(dataUrl);
    match FirstAppClient(clients, target, 0)
    case Some(i) => Focus(i)
    case None => if canOpenWindow then OpenWindow(target) else NoAction
  }

  /** With the corrected test, an open, focusable window anywhere on the origin is focused, and the
      window focused is one of the app's. */
  lemma OpenAppWindowIsFocused(origin: string, clients: seq<Client>, canOpenWindow: bool, k: nat)
    requires origin != ""
    requires k < |clients| && clients[k].focusable && Below(clients[k].url, origin)
    ensures OnAppClick(Some(origin), clients, canOpenWindow).Focus?
    ensures var i := OnAppClick(Some(origin), clients, canOpenWindow).index;
      i <= k && (clients[i].url == origin || Below(clients[i].url, origin))
  {
    assert FitsApp(clients[k], origin);
  }
}
