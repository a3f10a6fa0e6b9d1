/** The end-user feedback widget of the full version: a floating button that
    opens a modal with a message box, a character counter, an optional
    screenshot and a submit button. The DOM it builds is not modelled; its
    state (open or closed, the text in the message box, the attached
    screenshot) is. */
module Widget {
  import opened JsValues
  import opened JsText
  import opened Feedback

  const MAX_MESSAGE_LENGTH: nat := 2000
  const MAX_SCREENSHOT_SIZE: nat := 5 * 1024 * 1024

  /** The page name shown in the modal and sent as `tab_context`: the hash
      without its `#` when there is one, `Dashboard` for the start page, and
      otherwise the last path segment, or `Unknown` when that is empty. */
  function CurrentPage(path: string, hash: string): (r: string)
    ensures hash != "" && hash[0] == '#' ==> r == hash[1..]
    ensures hash == "" && (path == "/" || path == "/index.html") ==> r == "Dashboard"
    ensures hash == "" ==> r != "" && '/' !in r
    ensures hash == "" && r != "Dashboard" && r != "Unknown" ==>
              r == LastSegment(path) && r == path[|path| - |r|..]
  {
    if hash != "" then RemoveFirst(hash, '#')
    else if path == "/" || path == "/index.html" then "Dashboard"
    else if LastSegment(path) == "" then "Unknown"
    else LastSegment(path)
  }

  /** A page file under some directory is named by its file name. */
  lemma CurrentPageOfFile(dir: string, name: string)
    requires name != "" && '/' !in name
    requires dir != "" || name != "index.html"
    ensures CurrentPage(dir + "/" + name, "") == name
  {
    LastSegmentAfterSlash(dir, name);
    var path := dir + "/" + name;
    assert path[|path| - |name|..] == name;
    assert path != "/";
    if path == "/index.html" {
      assert path[|path| - 10..] == "index.html";
    }
  }

  /** A path ending in a slash, other than the root itself, is `Unknown`. */
  lemma CurrentPageTrailingSlash(dir: string)
    requires dir != ""
    ensures CurrentPage(dir + "/", "") == "Unknown"
  {
    var path := dir + "/";
    assert path[|path| - 1] == '/';
    assert path != "/";
    assert "/index.html"[10] == 'l';
  }

  /** The browser name shown in the modal: the first of Chrome, Firefox,
      Safari and Edge whose name occurs in the user agent, else `Browser`. */
  function BrowserInfo(ua: string): (r: string)
    ensures r in {"Chrome", "Firefox", "Safari", "Edge", "Browser"}
    ensures r == "Chrome" <==> Contains(ua, "Chrome")
    ensures r == "Firefox" <==> !Contains(ua, "Chrome") && Contains(ua, "Firefox")
    ensures r == "Safari" <==> !Contains(ua, "Chrome") && !Contains(ua, "Firefox") && Contains(ua, "Safari")
    ensures r == "Edge" <==>
              !Contains(ua, "Chrome") && !Contains(ua, "Firefox") && !Contains(ua, "Safari") && Contains(ua, "Edge")
    ensures r == "Browser" <==>
              !Contains(ua, "Chrome") && !Contains(ua, "Firefox") && !Contains(ua, "Safari") && !Contains(ua, "Edge")
  {
    if Contains(ua, "Chrome") then "Chrome"
    else if Contains(ua, "Firefox") then "Firefox"
    else if Contains(ua, "Safari") then "Safari"
    else if Contains(ua, "Edge") then "Edge"
    else "Browser"
  }

  /** The user agent of Microsoft Edge 18, which names Chrome and Safari
      before Edge. */
  const EDGE_18_USER_AGENT: string :=
    "Mozilla/5.0 (Windows NT 10.0; Win64; x64) AppleWebKit/537.36 (KHTML, like Gecko) "
    + "Chrome" + "/70.0.3538.102 Safari/537.36 " + "Edge" + "/18.19582"

  lemma Edge18Contains()
    ensures Contains(EDGE_18_USER_AGENT, "Chrome") && Contains(EDGE_18_USER_AGENT, "Edge")
  {
    ContainsBoth("Mozilla/5.0 (Windows NT 10.0; Win64; x64) AppleWebKit/537.36 (KHTML, like Gecko) ",
                 "Chrome", "/70.0.3538.102 Safari/537.36 ", "Edge", "/18.19582");
  }

  /** Checked in this order, the Edge branch is never reached for an Edge
      user agent: Edge 18 is reported as Chrome. */
  lemma EdgeReportedAsChrome()
    ensures Contains(EDGE_18_USER_AGENT, "Edge")
    ensures BrowserInfo(EDGE_18_USER_AGENT) == "Chrome"
  {
    Edge18Contains();
  }

  /** The evidently intended classification: Edge is recognised before the
      engines its user agent also names. */
  function BrowserInfoEdgeFirst(ua: string): (r: string)
    ensures Contains(ua, "Edge") ==> r == "Edge"
    ensures !Contains(ua, "Edge") ==> r == BrowserInfo(ua)
  {
    if Contains(ua, "Edge") then "Edge" else BrowserInfo(ua)
  }

  lemma EdgeFirstRecognisesEdge18()
    ensures BrowserInfoEdgeFirst(EDGE_18_USER_AGENT) == "Edge"
  {
    Edge18Contains();
  }

  /** The colour classes of the character counter. */
  datatype CounterStyle = CounterStyle(warning: bool, error: bool)

  /** `warning` above 90% of the maximum, `error` from the maximum on. The
      product `2000 * 0.9` is exactly 1800 in floating point, so the integer
      comparison `count * 10 > max * 9` is the same test. */
  function CharCounter(count: nat): (c: CounterStyle)
    ensures c.warning <==> count > 1800
    ensures c.error <==> count >= MAX_MESSAGE_LENGTH
    ensures c.error ==> c.warning
    ensures count <= 1800 ==> c == CounterStyle(false, false)
  {
    CounterStyle(count * 10 > MAX_MESSAGE_LENGTH * 9, count >= MAX_MESSAGE_LENGTH)
  }

  /** A file picked for the screenshot: its size in bytes and the data URL
      the browser's file reader makes of it. */
  datatype PickedFile = PickedFile(size: nat, dataUrl: string)

  /** The body of the submit request. */
  datatype Submission = Submission(
    message: string,
    screenshotUrl: Option<string>,
    tabContext: string,
    screenSize: string,
    browserInfo: string,
    pageUrl: string)

  /** The message a submit sends: the trimmed text of the message box, or
      nothing when the box holds only whitespace. */
  function SubmittedMessage(draft: string): (m: Option<string>)
    ensures m.None? <==> AllWhitespace(draft)
    ensures m.Some? ==> && m.value == Trim(draft)
                        && !IsWhitespace(m.value[0])
                        && !IsWhitespace(m.value[|m.value| - 1])
  {
    var message := Trim(draft);
    if message == "" then None else Some(message)
  }

  /** The body the submit button sends: the submitted message with the
      screenshot and the page context, or nothing when there is no message. */
  function Request(draft: string, screenshot: Option<string>, page: Page): (r: Option<Submission>)
    ensures r.None? <==> SubmittedMessage(draft).None?
    ensures r.Some? ==> && Some(r.value.message) == SubmittedMessage(draft)
                        && r.value.screenshotUrl == screenshot
                        && r.value.tabContext == CurrentPage(page.path, page.hash)
                        && r.value.screenSize == ScreenSize(page)
                        && r.value.browserInfo == page.userAgent
                        && r.value.pageUrl == page.href
  {
    match SubmittedMessage(draft)
    case None => None
    case Some(message) =>
      Some(Submission(message, screenshot, CurrentPage(page.path, page.hash),
                      ScreenSize(page), page.userAgent, page.href))
  }

  const EMPTY_MESSAGE_ALERT := "Bitte gib eine Nachricht ein."
  const TOO_LARGE_ALERT := "Screenshot zu gro\U{00DF}. Maximal 5MB erlaubt."
  const NETWORK_ALERT := "Netzwerkfehler. Bitte versuche es sp\U{00E4}ter erneut."

  /** The alert's fallback when an error response has no `detail`. */
  const REFUSED_FALLBACK := "Feedback konnte nicht gesendet werden"

  class FeedbackWidget {
    var isOpen: bool
    /** The data URL of the attached screenshot. */
    var screenshot: Option<string>
    /** The text in the message box. */
    var draft: string

    constructor ()
      ensures !isOpen && screenshot == None && draft == ""
    {
      isOpen, screenshot, draft := false, None, "";
    }

    method Open()
      modifies this`isOpen
      ensures isOpen
    {
      isOpen := true;
    }

    method Close()
      modifies this`isOpen
      ensures !isOpen
    {
      isOpen := false;
    }

    /** Ctrl+Shift+F */
    method Toggle()
      modifies this`isOpen
      ensures isOpen == !old(isOpen)
    {
      if isOpen {
        Close();
      } else {
        Open();
      }
    }

    /** The user edits the message box; the input handler restyles the counter. */
    method Edit(text: string) returns (counter: CounterStyle)
      modifies this`draft
      ensures draft == text
      ensures counter == CharCounter(|text|)
    {
      draft := text;
      counter := CharCounter(|draft|);
    }

    /** The file input's change handler. A file over the size limit is
        refused with an alert and leaves the screenshot as it was. */
    method PickScreenshot(file: Option<PickedFile>) returns (alert: Option<string>)
      modifies this`screenshot
      ensures alert.Some? <==> file.Some? && file.value.size > MAX_SCREENSHOT_SIZE
      ensures alert.Some? ==> alert.value == TOO_LARGE_ALERT
      ensures screenshot == if file.Some? && alert.None? then Some(file.value.dataUrl) else old(screenshot)
    {
      alert := None;
      if file.Some? {
        if file.value.size > MAX_SCREENSHOT_SIZE {
          alert := Some(TOO_LARGE_ALERT);
          return;
        }
        screenshot := Some(file.value.dataUrl);
      }
    }

    method RemoveScreenshot()
      modifies this`screenshot
      ensures screenshot == None
    {
      screenshot := None;
    }

    /** Sends the trimmed message, the screenshot and the page context. An
        empty message sends nothing. On success the form is cleared (the
        success panel and the delayed close are not modelled); on failure
        the state is left as it was and an alert explains. */
    method Submit(page: Page, outcome: SendOutcome) returns (request: Option<Submission>, alert: Option<string>)
      modifies this`draft, this`screenshot
      ensures request == Request(old(draft), old(screenshot), page)
      ensures request.None? ==> alert == Some(EMPTY_MESSAGE_ALERT)
      ensures request.Some? && outcome.Accepted? ==> draft == "" && screenshot == None && alert == None
      ensures request.Some? && outcome.Refused? ==> alert == Some(RefusedAlert(outcome.detail, REFUSED_FALLBACK))
      ensures request.Some? && outcome.NetworkFailure? ==> alert == Some(NETWORK_ALERT)
      ensures !(request.Some? && outcome.Accepted?) ==> draft == old(draft) && screenshot == old(screenshot)
    {
      request := Request(draft, screenshot, page);
      if request.None? {
        alert := Some(EMPTY_MESSAGE_ALERT);
        return;
      }
      if outcome.Accepted? {
        draft, screenshot, alert := "", None, None;
      } else if outcome.Refused? {
        alert := Some(RefusedAlert(outcome.detail, REFUSED_FALLBACK));
      } else {
        alert := Some(NETWORK_ALERT);
      }
    }
  }
}
