/** The settings view model's alert handling: which alerts reach the user, what each
    banner says and offers, and what its buttons record. */
module AlertGatekeeper {
  import opened Values
  import opened LocalStorage

  /** The banner type handed to the notification library. */
  datatype NoticeType = Error | Notice

  datatype Button = Details | NeverShowAgain | Ok | Close

  /** The four messages the plugin knows; `Body` gives each one's text. */
  datatype Message = ServerMessage | WebcamMessage | StreamingMessage | CpuMessage

  /** One banner as it is presented, with the alert that raised it. */
  datatype Banner = Banner(alert: Alert, message: Message, kind: NoticeType, buttons: seq<Button>)

  /** What one alert does: the session map afterwards and the banner, if any, presented. */
  datatype Step = Step(shown: map<Path, bool>, banner: Option<Banner>)

  /** What a list of alerts does: the session map afterwards and the banners presented, in order. */
  datatype Run = Run(shown: map<Path, bool>, banners: seq<Banner>)

  /** The text of a message, as the banner shows it; never empty. */
  function Body(m: Message): (text: string)
    ensures |text| > 0
  {
    match m
    case ServerMessage => ServerText
    case WebcamMessage => WebcamText
    case StreamingMessage => StreamingText
    case CpuMessage => CpuText
  }

  const ServerText := "The Spaghetti Detective failed to connect to the server. Please make sure OctoPrint has a reliable internet connection."
  const WebcamText := "The Spaghetti Detective plugin failed to connect to the webcam. Please go to \"Settings\" -> \"Webcam & Timelapse\" and make sure the stream URL and snapshot URL are set correctly. Or follow <a href=\"https://www.thespaghettidetective.com/docs/webcam-connection-error-popup\">this trouble-shooting guide</a>."
  const StreamingText := "<p>Premium webcam streaming failed to start. The Spaghetti Detective has switched to basic streaming.</p><p><a href=\"https://www.thespaghettidetective.com/docs/webcam-switched-to-basic-streaming/\">Learn more >>></a></p>"
  const CpuText := "<p>Premium streaming uses excessive CPU. This may negatively impact your print quality. Consider switching \"compatibility mode\" to \"auto\" or \"never\", or disable premium streaming. <a href=\"https://www.thespaghettidetective.com/docs/streaming-compatibility-mode/#more-about-cpu-usage-in-compatibility-mode\">Learn more >>></a></p>"

  /** The (cause, level) pairs the plugin has a message for. */
  const KnownAlerts: set<Alert> :=
    {Alert("server", "error"), Alert("webcam", "error"), Alert("streaming", "warning"), Alert("cpu", "warning")}

  /** Where "never show again" is recorded in the durable store. */
  function IgnoredPath(a: Alert): Path
  {
    ["ignored", a.cause, a.level]
  }

  /** Where "already shown" is recorded in the session map. */
  function ShownPath(a: Alert): Path
  {
    [a.cause, a.level]
  }

  /** The durable store says never to show `a` again. */
  predicate Ignored(obj: map<Path, Value>, a: Alert)
  {
    Truthy(Lookup(obj, IgnoredPath(a), Bool(false)))
  }

  /** The session map says the alert at `p` was already shown. */
  predicate IsShown(shown: map<Path, bool>, p: Path)
  {
    p in shown && shown[p]
  }

  /** A warning is shown as a notice; every other level as an error. */
  function MsgTypeFor(level: string): (t: NoticeType)
    ensures t == Notice <==> level == "warning"
    ensures t == Error <==> level != "warning"
  {
    if level == "warning" then Notice else Error
  }

  /** The buttons a banner offers: the three common ones, led by "Details" at error level. */
  function ButtonsFor(level: string): (bs: seq<Button>)
    ensures |bs| == if level == "error" then 4 else 3
    ensures Details in bs <==> level == "error"
    ensures Details in bs ==> bs[0] == Details
    ensures bs[|bs| - 3..] == [NeverShowAgain, Ok, Close]
  {
    var common := [NeverShowAgain, Ok, Close];
    if level == "error" then [Details] + common else common
  }

  /** The message for an alert; only the four known pairs have one. */
  function MessageFor(a: Alert): (m: Option<Message>)
    ensures m.Some? <==> a in KnownAlerts
    ensures m == Some(ServerMessage) <==> a == Alert("server", "error")
    ensures m == Some(WebcamMessage) <==> a == Alert("webcam", "error")
    ensures m == Some(StreamingMessage) <==> a == Alert("streaming", "warning")
    ensures m == Some(CpuMessage) <==> a == Alert("cpu", "warning")
  {
    if a.level == "error" then
      if a.cause == "server" then Some(ServerMessage)
      else if a.cause == "webcam" then Some(WebcamMessage)
      else None
    else if a.level == "warning" then
      if a.cause == "streaming" then Some(StreamingMessage)
      else if a.cause == "cpu" then Some(CpuMessage)
      else None
    else None
  }

  /** The banner for an alert that got past both checks: none when there is no message. */
  function BannerFor(a: Alert): (b: Option<Banner>)
    ensures b.Some? <==> a in KnownAlerts
    ensures b.Some? ==> b.value.alert == a && b.value.message == MessageFor(a).value &&
                        b.value.kind == MsgTypeFor(a.level) && b.value.buttons == ButtonsFor(a.level)
  {
    match MessageFor(a)
    case None => None
    case Some(m) => Some(Banner(a, m, MsgTypeFor(a.level), ButtonsFor(a.level)))
  }

  /** One alert against the durable object `obj` and the session map `shown`. */
  function Display(obj: map<Path, Value>, shown: map<Path, bool>, a: Alert): (r: Step)
    ensures r.banner.Some? <==> !Ignored(obj, a) && !IsShown(shown, ShownPath(a)) && a in KnownAlerts
    ensures r.banner.Some? ==> r.banner == BannerFor(a) && r.banner.value.alert == a
    ensures IsShown(r.shown, ShownPath(a)) <==> IsShown(shown, ShownPath(a)) || !Ignored(obj, a)
  {
    if Ignored(obj, a) then Step(shown, None)
    else if IsShown(shown, ShownPath(a)) then Step(shown, None)
    else Step(shown[ShownPath(a) := true], BannerFor(a))
  }

  /** The alerts of one status reply, in order, against a store that does not change meanwhile. */
  function DisplayAll(obj: map<Path, Value>, shown: map<Path, bool>, alerts: seq<Alert>): (r: Run)
    ensures |r.banners| <= |alerts|
    ensures forall p :: IsShown(shown, p) ==> IsShown(r.shown, p)
    decreases |alerts|
  {
    if alerts == [] then Run(shown, [])
    else
      var before := DisplayAll(obj, shown, alerts[..|alerts| - 1]);
      var step := Display(obj, before.shown, alerts[|alerts| - 1]);
      DisplayGrows(obj, before.shown, alerts[|alerts| - 1]);
      Run(step.shown, before.banners + (if step.banner.Some? then [step.banner.value] else []))
  }

  /** Handling the first `i + 1` alerts is handling the first `i`, then alert `i`. */
  lemma DisplayAllSnoc(obj: map<Path, Value>, shown: map<Path, bool>, alerts: seq<Alert>, i: int)
    requires 0 <= i < |alerts|
    ensures var before := DisplayAll(obj, shown, alerts[..i]);
            var step := Display(obj, before.shown, alerts[i]);
            DisplayAll(obj, shown, alerts[..i + 1]) ==
              Run(step.shown, before.banners + (if step.banner.Some? then [step.banner.value] else []))
  {
    assert alerts[..i + 1][..i] == alerts[..i];
  }

  /** The status reply's handler asks to opt in to bug reporting exactly when the reply's
      `sentry_opt` is the string `"out"`. */
  predicate PromptsOptIn(data: StatusPayload)
    ensures PromptsOptIn(data) ==> data.sentryOpt.Some? && Truthy(data.sentryOpt.value)
    ensures data.sentryOpt.Some? && data.sentryOpt.value in {Str("in"), Str("asked")} ==> !PromptsOptIn(data)
  {
    data.sentryOpt == Some(Str("out"))
  }

  /** The stored object after a button of `a`'s banner is clicked. */
  function AfterClick(obj: map<Path, Value>, b: Button, a: Alert): (r: map<Path, Value>)
    ensures b != NeverShowAgain ==> r == obj
    ensures b == NeverShowAgain ==> Ignored(r, a)
    ensures forall p :: p != IgnoredPath(a) ==> (p in r <==> p in obj)
    ensures forall p :: p != IgnoredPath(a) && p in r ==> r[p] == obj[p]
  {
    if b == NeverShowAgain then obj[IgnoredPath(a) := Bool(true)] else obj
  }

  lemma ShownPathInjective(a: Alert, b: Alert)
    ensures ShownPath(a) == ShownPath(b) <==> a == b
  {
    if ShownPath(a) == ShownPath(b) {
      assert ShownPath(a)[0] == ShownPath(b)[0] && ShownPath(a)[1] == ShownPath(b)[1];
    }
  }

  /** An ignored alert presents nothing and leaves the session map alone. */
  lemma IgnoredSuppresses(obj: map<Path, Value>, shown: map<Path, bool>, a: Alert)
    requires Ignored(obj, a)
    ensures Display(obj, shown, a) == Step(shown, None)
  {
  }

  /** The same alert a second time in one session presents nothing and changes nothing. */
  lemma SecondDisplayIsNoOp(obj: map<Path, Value>, shown: map<Path, bool>, a: Alert)
    ensures var first := Display(obj, shown, a);
            Display(obj, first.shown, a) == Step(first.shown, None)
  {
  }

  /** An alert that passes both checks is marked shown whether or not it has a message;
      it is presented exactly when its pair is a known one. */
  lemma PassedAlertMarkedShown(obj: map<Path, Value>, shown: map<Path, bool>, a: Alert)
    requires !Ignored(obj, a) && !IsShown(shown, ShownPath(a))
    ensures var r := Display(obj, shown, a);
            IsShown(r.shown, ShownPath(a)) && (r.banner.Some? <==> a in KnownAlerts)
  {
  }

  /** The session map only grows: every key shown before is shown after, and the only key
      that can be added is the alert's own. */
  lemma DisplayGrows(obj: map<Path, Value>, shown: map<Path, bool>, a: Alert)
    ensures forall p :: IsShown(Display(obj, shown, a).shown, p) <==> IsShown(shown, p) || (p == ShownPath(a) && !Ignored(obj, a))
  {
  }

  /** Some alert of `alerts` with session key `p` is not ignored in `obj`. */
  predicate Raised(obj: map<Path, Value>, alerts: seq<Alert>, p: Path)
  {
    exists i :: 0 <= i < |alerts| && !Ignored(obj, alerts[i]) && ShownPath(alerts[i]) == p
  }

  lemma RaisedLast(obj: map<Path, Value>, alerts: seq<Alert>, p: Path)
    requires alerts != []
    ensures Raised(obj, alerts, p) <==>
      Raised(obj, alerts[..|alerts| - 1], p) ||
      (!Ignored(obj, alerts[|alerts| - 1]) && ShownPath(alerts[|alerts| - 1]) == p)
  {
    var init := alerts[..|alerts| - 1];
    if Raised(obj, alerts, p) {
      var i :| 0 <= i < |alerts| && !Ignored(obj, alerts[i]) && ShownPath(alerts[i]) == p;
      if i < |init| {
        assert init[i] == alerts[i];
      }
    }
    if Raised(obj, init, p) {
      var i :| 0 <= i < |init| && !Ignored(obj, init[i]) && ShownPath(init[i]) == p;
      assert alerts[i] == init[i];
    }
  }

  /** After a list of alerts, a key is shown exactly when it was shown before or some alert
      of the list with that key was not ignored. */
  lemma {:induction false} DisplayAllShown(obj: map<Path, Value>, shown: map<Path, bool>, alerts: seq<Alert>)
    ensures forall p :: IsShown(DisplayAll(obj, shown, alerts).shown, p) <==> IsShown(shown, p) || Raised(obj, alerts, p)
    decreases |alerts|
  {
    if alerts != [] {
      var init := alerts[..|alerts| - 1];
      var last := alerts[|alerts| - 1];
      DisplayAllShown(obj, shown, init);
      var before := DisplayAll(obj, shown, init);
      DisplayGrows(obj, before.shown, last);
      assert DisplayAll(obj, shown, alerts).shown == Display(obj, before.shown, last).shown;
      forall p
        ensures IsShown(DisplayAll(obj, shown, alerts).shown, p) <==> IsShown(shown, p) || Raised(obj, alerts, p)
      {
        RaisedLast(obj, alerts, p);
      }
    }
  }

  /** Banner `k` of run `r` belongs to an alert of `alerts` with a known message, that was
      neither ignored in `obj` nor shown in `shown`, and is shown in `r`; the banner is the
      one `BannerFor` builds for that alert. */
  predicate FreshBanner(obj: map<Path, Value>, shown: map<Path, bool>, alerts: seq<Alert>, r: Run, k: int)
    requires 0 <= k < |r.banners|
  {
    var a := r.banners[k].alert;
    a in alerts && !Ignored(obj, a) && !IsShown(shown, ShownPath(a)) && IsShown(r.shown, ShownPath(a)) &&
    Some(r.banners[k]) == BannerFor(a)
  }

  /** Every banner presented for a list of alerts belongs to an alert of the list with a
      known message, that was neither ignored nor shown before, and is shown after. */
  lemma {:induction false} DisplayAllBannersFresh(obj: map<Path, Value>, shown: map<Path, bool>, alerts: seq<Alert>)
    ensures forall k :: 0 <= k < |DisplayAll(obj, shown, alerts).banners| ==>
              FreshBanner(obj, shown, alerts, DisplayAll(obj, shown, alerts), k)
    decreases |alerts|
  {
    if alerts != [] {
      var init := alerts[..|alerts| - 1];
      DisplayAllBannersFresh(obj, shown, init);
      var before := DisplayAll(obj, shown, init);
      var step := Display(obj, before.shown, alerts[|alerts| - 1]);
      var r := DisplayAll(obj, shown, alerts);
      assert r == Run(step.shown, before.banners + (if step.banner.Some? then [step.banner.value] else []));
      BannersFreshStep(obj, shown, init, alerts, before, step, r);
    }
  }

  /** The inductive step of `DisplayAllBannersFresh`: the run of the prefix `before`, with
      fresh banners and every key shown before still shown, followed by the last
      alert's `step`, make the run `r`. */
  lemma BannersFreshStep(obj: map<Path, Value>, shown: map<Path, bool>, init: seq<Alert>, alerts: seq<Alert>,
                         before: Run, step: Step, r: Run)
    requires alerts != [] && init == alerts[..|alerts| - 1]
    requires forall k :: 0 <= k < |before.banners| ==> FreshBanner(obj, shown, init, before, k)
    requires forall p :: IsShown(shown, p) ==> IsShown(before.shown, p)
    requires step == Display(obj, before.shown, alerts[|alerts| - 1])
    requires r == Run(step.shown, before.banners + (if step.banner.Some? then [step.banner.value] else []))
    ensures forall k :: 0 <= k < |r.banners| ==> FreshBanner(obj, shown, alerts, r, k)
  {
    var last := alerts[|alerts| - 1];
    DisplayGrows(obj, before.shown, last);
    forall k | 0 <= k < |r.banners|
      ensures FreshBanner(obj, shown, alerts, r, k)
    {
      if k < |before.banners| {
        FreshBannerExtends(obj, shown, init, alerts, before, r, k);
      } else {
        assert r.banners[k] == step.banner.value;
        assert last in alerts;
      }
    }
  }

  /** A fresh banner of a prefix's run stays fresh in the run of the whole list. */
  lemma FreshBannerExtends(obj: map<Path, Value>, shown: map<Path, bool>, init: seq<Alert>, alerts: seq<Alert>,
                           before: Run, r: Run, k: int)
    requires 0 <= k < |before.banners| <= |r.banners| && r.banners[k] == before.banners[k]
    requires |init| <= |alerts| && init == alerts[..|init|]
    requires forall p :: IsShown(before.shown, p) ==> IsShown(r.shown, p)
    requires FreshBanner(obj, shown, init, before, k)
    ensures FreshBanner(obj, shown, alerts, r, k)
  {
    InPrefix(init, alerts, before.banners[k].alert);
  }

  lemma InPrefix(init: seq<Alert>, alerts: seq<Alert>, a: Alert)
    requires |init| <= |alerts| && init == alerts[..|init|] && a in init
    ensures a in alerts
  {
    var i :| 0 <= i < |init| && init[i] == a;
    assert alerts[i] == a;
  }

  /** Some banner of `banners` belongs to `a`. */
  predicate Presents(banners: seq<Banner>, a: Alert)
  {
    exists k :: 0 <= k < |banners| && banners[k].alert == a
  }

  /** Conversely, every alert of the list with a known message that is neither ignored nor
      shown before gets a banner. */
  lemma {:induction false} DisplayAllPresentsFresh(obj: map<Path, Value>, shown: map<Path, bool>, alerts: seq<Alert>, a: Alert)
    requires a in alerts && a in KnownAlerts && !Ignored(obj, a) && !IsShown(shown, ShownPath(a))
    ensures Presents(DisplayAll(obj, shown, alerts).banners, a)
    decreases |alerts|
  {
    var init := alerts[..|alerts| - 1];
    var before := DisplayAll(obj, shown, init);
    var step := Display(obj, before.shown, alerts[|alerts| - 1]);
    var extra := if step.banner.Some? then [step.banner.value] else [];
    assert DisplayAll(obj, shown, alerts).banners == before.banners + extra;
    InInitOrLast(alerts, a);
    if a in init {
      DisplayAllPresentsFresh(obj, shown, init, a);
      PresentsAppend(before.banners, extra, a);
    } else {
      LastPresented(obj, shown, init, a);
      assert (before.banners + extra)[|before.banners|].alert == a;
    }
  }

  lemma PresentsAppend(banners: seq<Banner>, extra: seq<Banner>, a: Alert)
    requires Presents(banners, a)
    ensures Presents(banners + extra, a)
  {
    var k :| 0 <= k < |banners| && banners[k].alert == a;
    assert (banners + extra)[k] == banners[k];
  }

  /** A fresh known alert that no earlier alert of the list shares a key with is presented
      when its turn comes. */
  lemma LastPresented(obj: map<Path, Value>, shown: map<Path, bool>, init: seq<Alert>, a: Alert)
    requires a !in init && a in KnownAlerts && !Ignored(obj, a) && !IsShown(shown, ShownPath(a))
    ensures Display(obj, DisplayAll(obj, shown, init).shown, a).banner == BannerFor(a)
    ensures BannerFor(a).Some? && BannerFor(a).value.alert == a
  {
    NotRaisedUnlessPresent(obj, init, a);
    DisplayAllShown(obj, shown, init);
  }

  lemma InInitOrLast(alerts: seq<Alert>, a: Alert)
    requires a in alerts
    ensures a in alerts[..|alerts| - 1] || a == alerts[|alerts| - 1]
  {
    var i :| 0 <= i < |alerts| && alerts[i] == a;
    if i < |alerts| - 1 {
      assert alerts[..|alerts| - 1][i] == a;
    }
  }

  /** An alert absent from a list is not raised by any other alert of it: no other pair
      shares its session key. */
  lemma NotRaisedUnlessPresent(obj: map<Path, Value>, alerts: seq<Alert>, a: Alert)
    requires a !in alerts
    ensures !Raised(obj, alerts, ShownPath(a))
  {
    forall i | 0 <= i < |alerts|
      ensures ShownPath(alerts[i]) != ShownPath(a)
    {
      assert alerts[i] in alerts;
      ShownPathInjective(alerts[i], a);
    }
  }

  /** No two banners of `banners` belong to the same (cause, level) pair. */
  predicate OncePerKey(banners: seq<Banner>)
  {
    forall j, k :: 0 <= j < k < |banners| ==> banners[j].alert != banners[k].alert
  }

  lemma AppendOncePerKey(banners: seq<Banner>, b: Banner)
    requires OncePerKey(banners)
    requires forall j :: 0 <= j < |banners| ==> banners[j].alert != b.alert
    ensures OncePerKey(banners + [b])
  {
    var bs := banners + [b];
    forall j, k | 0 <= j < k < |bs|
      ensures bs[j].alert != bs[k].alert
    {
      assert bs[j] == banners[j];
      if k < |banners| {
        assert bs[k] == banners[k];
      }
    }
  }

  /** However many duplicates the list holds, at most one banner is presented per
      (cause, level) pair. */
  lemma {:induction false} DisplayAllOncePerKey(obj: map<Path, Value>, shown: map<Path, bool>, alerts: seq<Alert>)
    ensures OncePerKey(DisplayAll(obj, shown, alerts).banners)
    decreases |alerts|
  {
    if alerts != [] {
      var init := alerts[..|alerts| - 1];
      var last := alerts[|alerts| - 1];
      DisplayAllOncePerKey(obj, shown, init);
      DisplayAllBannersFresh(obj, shown, init);
      var before := DisplayAll(obj, shown, init);
      var step := Display(obj, before.shown, last);
      if step.banner.Some? {
        assert !IsShown(before.shown, ShownPath(last)) && step.banner.value.alert == last;
        forall j | 0 <= j < |before.banners|
          ensures before.banners[j].alert != last
        {
          assert FreshBanner(obj, shown, init, before, j);
        }
        AppendOncePerKey(before.banners, step.banner.value);
      }
    }
  }

  /** A "never show again" flag, once set, stays set: no click on any banner clears it. */
  lemma IgnoredPersists(obj: map<Path, Value>, b: Button, x: Alert, a: Alert)
    requires Ignored(obj, a)
    ensures Ignored(AfterClick(obj, b, x), a)
  {
  }

  /** The stored object after a sequence of clicks, each a button on some alert's banner, in order. */
  function AfterClicks(obj: map<Path, Value>, clicks: seq<(Button, Alert)>): map<Path, Value>
    decreases |clicks|
  {
    if clicks == [] then obj
    else
      var c := clicks[|clicks| - 1];
      AfterClick(AfterClicks(obj, clicks[..|clicks| - 1]), c.0, c.1)
  }

  lemma {:induction false} IgnoredSurvivesClicks(obj: map<Path, Value>, clicks: seq<(Button, Alert)>, a: Alert)
    requires Ignored(obj, a)
    ensures Ignored(AfterClicks(obj, clicks), a)
    decreases |clicks|
  {
    if clicks != [] {
      var init := clicks[..|clicks| - 1];
      var c := clicks[|clicks| - 1];
      IgnoredSurvivesClicks(obj, init, a);
      IgnoredPersists(AfterClicks(obj, init), c.0, c.1, a);
    }
  }

  /** An ignored alert is presented by no list of alerts, from any session map. */
  lemma IgnoredNeverPresented(obj: map<Path, Value>, shown: map<Path, bool>, alerts: seq<Alert>, a: Alert)
    requires Ignored(obj, a)
    ensures !Presents(DisplayAll(obj, shown, alerts).banners, a)
  {
    DisplayAllBannersFresh(obj, shown, alerts);
    var r := DisplayAll(obj, shown, alerts);
    forall k | 0 <= k < |r.banners|
      ensures r.banners[k].alert != a
    {
      assert FreshBanner(obj, shown, alerts, r, k);
    }
  }

  /** After "never show again" on `a`'s banner, and any clicks on any banners after it, the
      flag is still set and no list of alerts, in this session or in a fresh one, presents `a`. */
  lemma NeverShowAgainIsPermanent(obj: map<Path, Value>, a: Alert, clicks: seq<(Button, Alert)>,
                                  shown: map<Path, bool>, alerts: seq<Alert>)
    ensures Ignored(AfterClicks(AfterClick(obj, NeverShowAgain, a), clicks), a)
    ensures !Presents(DisplayAll(AfterClicks(AfterClick(obj, NeverShowAgain, a), clicks), shown, alerts).banners, a)
  {
    var after := AfterClicks(AfterClick(obj, NeverShowAgain, a), clicks);
    IgnoredSurvivesClicks(AfterClick(obj, NeverShowAgain, a), clicks, a);
    IgnoredNeverPresented(after, shown, alerts, a);
  }

  /** One status reply as the view model handles it: its alerts, and the durable object as it
      stands at that moment. */
  datatype Reply = Reply(store: map<Path, Value>, alerts: seq<Alert>)

  /** The replies one page load handles, in order, from the session map `shown`: the session
      map afterwards and every banner presented. The store may change between replies. */
  function Session(shown: map<Path, bool>, replies: seq<Reply>): (r: Run)
    ensures forall p :: IsShown(shown, p) ==> IsShown(r.shown, p)
    decreases |replies|
  {
    if replies == [] then Run(shown, [])
    else
      var before := Session(shown, replies[..|replies| - 1]);
      var last := replies[|replies| - 1];
      var run := DisplayAll(last.store, before.shown, last.alerts);
      Run(run.shown, before.banners + run.banners)
  }

  /** Every banner presented in a session has its key shown at the end of it. */
  lemma {:induction false} SessionBannersShown(shown: map<Path, bool>, replies: seq<Reply>)
    ensures forall k :: 0 <= k < |Session(shown, replies).banners| ==>
              IsShown(Session(shown, replies).shown, ShownPath(Session(shown, replies).banners[k].alert))
    decreases |replies|
  {
    if replies != [] {
      var init := replies[..|replies| - 1];
      var last := replies[|replies| - 1];
      SessionBannersShown(shown, init);
      var before := Session(shown, init);
      var run := DisplayAll(last.store, before.shown, last.alerts);
      DisplayAllBannersFresh(last.store, before.shown, last.alerts);
      var r := Session(shown, replies);
      assert r == Run(run.shown, before.banners + run.banners);
      forall k | 0 <= k < |r.banners|
        ensures IsShown(r.shown, ShownPath(r.banners[k].alert))
      {
        if k < |before.banners| {
          assert r.banners[k] == before.banners[k];
        } else {
          assert r.banners[k] == run.banners[k - |before.banners|];
          assert FreshBanner(last.store, before.shown, last.alerts, run, k - |before.banners|);
        }
      }
    }
  }

  lemma AppendAllOncePerKey(b1: seq<Banner>, b2: seq<Banner>)
    requires OncePerKey(b1) && OncePerKey(b2)
    requires forall j, k :: 0 <= j < |b1| && 0 <= k < |b2| ==> b1[j].alert != b2[k].alert
    ensures OncePerKey(b1 + b2)
  {
    var bs := b1 + b2;
    forall j, k | 0 <= j < k < |bs|
      ensures bs[j].alert != bs[k].alert
    {
      if k < |b1| {
        assert bs[j] == b1[j] && bs[k] == b1[k];
      } else if j >= |b1| {
        assert bs[j] == b2[j - |b1|] && bs[k] == b2[k - |b1|];
      } else {
        assert bs[j] == b1[j] && bs[k] == b2[k - |b1|];
      }
    }
  }

  /** Across all the replies of a session, however the store changes between them, at most
      one banner is presented per (cause, level) pair. */
  lemma {:induction false} SessionOncePerKey(shown: map<Path, bool>, replies: seq<Reply>)
    ensures OncePerKey(Session(shown, replies).banners)
    decreases |replies|
  {
    if replies != [] {
      var init := replies[..|replies| - 1];
      var last := replies[|replies| - 1];
      SessionOncePerKey(shown, init);
      SessionBannersShown(shown, init);
      var before := Session(shown, init);
      var run := DisplayAll(last.store, before.shown, last.alerts);
      DisplayAllOncePerKey(last.store, before.shown, last.alerts);
      DisplayAllBannersFresh(last.store, before.shown, last.alerts);
      forall j, k | 0 <= j < |before.banners| && 0 <= k < |run.banners|
        ensures before.banners[j].alert != run.banners[k].alert
      {
        assert FreshBanner(last.store, before.shown, last.alerts, run, k);
      }
      AppendAllOncePerKey(before.banners, run.banners);
      assert Session(shown, replies).banners == before.banners + run.banners;
    }
  }

  /** The settings panel's view model: the session map of alerts already shown, and the
      durable store it shares with every other session of the same browser. */
  class SettingsViewModel {
    var alertsShown: map<Path, bool>
    const storage: Storage

    /** A page load: nothing shown yet in this session. */
    constructor (storage: Storage)
      ensures alertsShown == map[] && this.storage == storage
    {
      alertsShown := map[];
      this.storage := storage;
    }

    /** Decide on one alert, mark it shown, and build its banner. */
    method DisplayAlert(a: Alert) returns (banner: Option<Banner>)
      modifies this
      ensures Step(alertsShown, banner) == Display(storage.Object(), old(alertsShown), a)
    {
      var ignoredItemPath := IgnoredPath(a);
      if Truthy(storage.Retrieve(ignoredItemPath, Bool(false))) {
        return None;
      }

      var showItemPath := ShownPath(a);
      if showItemPath in alertsShown && alertsShown[showItemPath] {
        return None;
      }
      alertsShown := alertsShown[showItemPath := true];

      var msgType := MsgTypeFor(a.level);
      var buttons := ButtonsFor(a.level);
      var text := MessageFor(a);
      if text.Some? {
        banner := Some(Banner(a, text.value, msgType, buttons));
      } else {
        banner := None;
      }
    }

    /** The status reply's handler: decide on the opt-in prompt, then hand every alert of
        the reply, in order, to `DisplayAlert`. A reply without alerts has an empty list. */
    method OnPluginStatus(data: StatusPayload) returns (prompt: bool, banners: seq<Banner>)
      modifies this
      ensures prompt == PromptsOptIn(data)
      ensures Run(alertsShown, banners) == DisplayAll(storage.Object(), old(alertsShown), data.alerts)
    {
      prompt := data.sentryOpt == Some(Str("out"));
      banners := [];
      var i := 0;
      while i < |data.alerts|
        invariant 0 <= i <= |data.alerts|
        invariant Run(alertsShown, banners) == DisplayAll(storage.Object(), old(alertsShown), data.alerts[..i])
      {
        DisplayAllSnoc(storage.Object(), old(alertsShown), data.alerts, i);
        var banner := DisplayAlert(data.alerts[i]);
        if banner.Some? {
          banners := banners + [banner.value];
        }
        i := i + 1;
      }
      assert data.alerts[..i] == data.alerts;
    }

    /** A click on one of a presented banner's buttons. Only "Never show again" writes to
        the store; nothing touches the session map. */
    method Click(banner: Banner, b: Button)
      requires b in banner.buttons
      modifies storage
      ensures storage.Object() == AfterClick(old(storage.Object()), b, banner.alert)
      ensures b != NeverShowAgain ==> storage.items == old(storage.items)
      ensures b == NeverShowAgain ==> storage.items == old(storage.items)[PluginKey := storage.Object()]
    {
      if b == NeverShowAgain {
        storage.Save(IgnoredPath(banner.alert), Bool(true));
      }
    }
  }
}
