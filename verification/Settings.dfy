/** The client's settings as a value, the mutations the program applies to it, and the transaction that
    commits one mutation: write the candidate first, publish it only if the write succeeded. */
module Settings {
  import opened Basics

  datatype Action = Ptt | MuteToggle | DeafenToggle | WhisperReply | QuickConnect | CompactToggle | ZenToggle

  datatype Recent = Recent(addr: string, nickname: string, lastUsed: int)

  /** The fields the Go side maintains on its own. */
  datatype GoOwned = GoOwned(recents: seq<Recent>, lastSeenVersion: string, activeIdentity: string)

  /** Presentation preferences that are clamped rather than rejected. */
  datatype Look = Look(
    soundPack: string, soundVolume: int, speechVolume: int, uiFontSize: int, chatFontSize: int,
    sidebarWidth: int, detailsWidth: int, chatMaxLines: int)

  /** The fields the frontend sends back as a whole; `rest` stands for the ones nothing here looks at. */
  datatype Front = Front(
    hotkeys: map<Action, string>, windowOpacity: int, alwaysOnTop: bool, look: Look,
    volume: int, chatNotificationLevel: string, rest: string)

  datatype Settings = Settings(owned: GoOwned, front: Front)

  const MAX_RECENTS := 10

  // ---------------------------------------------------------------------------------------------
  // Normalization

  function Clamp(value: int, min: int, max: int): (r: int)
    ensures min <= max ==> min <= r <= max
    ensures min <= value <= max ==> r == value
  {
    if value < min then min else if value > max then max else value
  }

  function PanelWidth(value: int): (r: int)
    ensures r == 0 <==> value == 0
    ensures r == 0 || 160 <= r <= 560
    ensures 160 <= value <= 560 ==> r == value
  {
    if value == 0 then 0 else Clamp(value, 160, 560)
  }

  function NormalizeLook(l: Look): Look {
    Look("noxa", Clamp(l.soundVolume, 0, 200), Clamp(l.speechVolume, 0, 200), Clamp(l.uiFontSize, 10, 20),
         Clamp(l.chatFontSize, 12, 18), PanelWidth(l.sidebarWidth), PanelWidth(l.detailsWidth),
         Clamp(l.chatMaxLines, 10, 5000))
  }

  function Normalize(s: Settings): Settings {
    s.(front := s.front.(windowOpacity := Clamp(s.front.windowOpacity, 20, 100), look := NormalizeLook(s.front.look)))
  }

  /** The ranges, stated apart from the code that clamps to them. */
  predicate InRange(s: Settings) {
    var l := s.front.look;
    && l.soundPack == "noxa"
    && 0 <= l.soundVolume <= 200 && 0 <= l.speechVolume <= 200
    && 20 <= s.front.windowOpacity <= 100
    && 10 <= l.uiFontSize <= 20 && 12 <= l.chatFontSize <= 18
    && (l.sidebarWidth == 0 || 160 <= l.sidebarWidth <= 560)
    && (l.detailsWidth == 0 || 160 <= l.detailsWidth <= 560)
    && 10 <= l.chatMaxLines <= 5000
  }

  /** Normalizing puts every value in range and leaves exactly the values in range alone. */
  lemma NormalizeReachesRange(s: Settings)
    ensures InRange(Normalize(s))
    ensures Normalize(s) == s <==> InRange(s)
  {
    if Normalize(s) == s {
      assert InRange(Normalize(s));
    }
  }

  // ---------------------------------------------------------------------------------------------
  // Mutations

  datatype Mutation =
    | SaveBlob(blob: Settings)                       // SaveSettings
    | Connected(recent: Recent)                      // RecordRecent
    | SawVersion(version: string)                    // WhatsNew
    | ChoseIdentity(id: string)                      // the identity manager
    | Opacity(percent: int)                          // SetWindowOpacity
    | OnTop(on: bool)                                // SetAlwaysOnTop
    | ThreeHotkeys(ptt: string, mute: string, reply: string) // SetHotkeys
    | OneHotkey(action: Action, spec: string)        // SetHotkey

  predicate SameServer(a: Recent, b: Recent) {
    a.addr == b.addr && a.nickname == b.nickname
  }

  function Without(recents: seq<Recent>, rec: Recent): seq<Recent> {
    if recents == [] then []
    else
      var front, last := recents[..|recents| - 1], recents[|recents| - 1];
      if SameServer(last, rec) then Without(front, rec) else Without(front, rec) + [last]
  }

  function Take(recents: seq<Recent>, n: nat): seq<Recent> {
    if |recents| > n then recents[..n] else recents
  }

  function AddRecent(recents: seq<Recent>, rec: Recent): seq<Recent> {
    Take([rec] + Without(recents, rec), MAX_RECENTS)
  }

  function MergeGoOwned(current: Settings, incoming: Settings): Settings {
    incoming.(owned := current.owned)
  }

  function Mutate(s: Settings, m: Mutation): Settings {
    match m
    case SaveBlob(blob) => MergeGoOwned(s, blob)
    case Connected(rec) => s.(owned := s.owned.(recents := AddRecent(s.owned.recents, rec)))
    case SawVersion(version) => s.(owned := s.owned.(lastSeenVersion := version))
    case ChoseIdentity(id) => s.(owned := s.owned.(activeIdentity := id))
    case Opacity(percent) => s.(front := s.front.(windowOpacity := Clamp(percent, 20, 100)))
    case OnTop(on) => s.(front := s.front.(alwaysOnTop := on))
    case ThreeHotkeys(ptt, mute, reply) =>
      s.(front := s.front.(hotkeys := s.front.hotkeys[Ptt := ptt][MuteToggle := mute][WhisperReply := reply]))
    case OneHotkey(action, spec) => s.(front := s.front.(hotkeys := s.front.hotkeys[action := spec]))
  }

  /** The candidate a transaction writes. */
  function Candidate(s: Settings, m: Mutation): Settings {
    Normalize(Mutate(s, m))
  }

  // What the callers of a transaction check first

  datatype Refusal = BadHotkey(action: Action) | BadMaxLines | BadVolume | BadLevel | EmptyAddress

  const LEVELS: seq<string> := ["direct", "channel_mentions", "role_mentions", "all"]

  function Spec(hotkeys: map<Action, string>, action: Action): string {
    if action in hotkeys then hotkeys[action] else ""
  }

  function SaveRefusal(valid: string -> bool, f: Front): Option<Refusal> {
    if !valid(Spec(f.hotkeys, Ptt)) then Some(BadHotkey(Ptt))
    else if !valid(Spec(f.hotkeys, MuteToggle)) then Some(BadHotkey(MuteToggle))
    else if !valid(Spec(f.hotkeys, WhisperReply)) then Some(BadHotkey(WhisperReply))
    else if f.look.chatMaxLines < 1 then Some(BadMaxLines)
    else if f.volume < 0 || f.volume > 200 then Some(BadVolume)
    else if f.chatNotificationLevel !in LEVELS then Some(BadLevel)
    else None
  }

  /** Why a call never starts its transaction, if it does not. */
  function Refused(valid: string -> bool, m: Mutation): Option<Refusal> {
    match m
    case SaveBlob(blob) => SaveRefusal(valid, blob.front)
    case Connected(rec) => if rec.addr == "" then Some(EmptyAddress) else None
    case ThreeHotkeys(ptt, mute, reply) =>
      if !valid(ptt) then Some(BadHotkey(Ptt))
      else if !valid(mute) then Some(BadHotkey(MuteToggle))
      else if !valid(reply) then Some(BadHotkey(WhisperReply))
      else None
    case OneHotkey(action, spec) => if !valid(spec) then Some(BadHotkey(action)) else None
    case _ => None
  }

  // Which stored hotkeys are valid

  predicate AllHotkeysValid(valid: string -> bool, f: Front) {
    forall a: Action :: valid(Spec(f.hotkeys, a))
  }

  /** The four hotkeys of a saved blob that SaveSettings does not look at. */
  predicate UncheckedValid(valid: string -> bool, f: Front) {
    && valid(Spec(f.hotkeys, DeafenToggle)) && valid(Spec(f.hotkeys, QuickConnect))
    && valid(Spec(f.hotkeys, CompactToggle)) && valid(Spec(f.hotkeys, ZenToggle))
  }

  /** SaveSettings checks three of the seven hotkeys. So an accepted mutation of settings with valid hotkeys
      keeps them all valid exactly when it is not a saved blob with one of the other four invalid. */
  lemma HotkeysStayValidIff(valid: string -> bool, s: Settings, m: Mutation)
    requires AllHotkeysValid(valid, s.front) && Refused(valid, m) == None
    ensures AllHotkeysValid(valid, Candidate(s, m).front) <==> (m.SaveBlob? ==> UncheckedValid(valid, m.blob.front))
  {
    var f := Candidate(s, m).front;
    if m.SaveBlob? {
      assert f.hotkeys == m.blob.front.hotkeys;
      if UncheckedValid(valid, m.blob.front) {
        forall a: Action ensures valid(Spec(f.hotkeys, a)) {
          match a
          case Ptt =>
          case MuteToggle =>
          case WhisperReply =>
          case DeafenToggle =>
          case QuickConnect =>
          case CompactToggle =>
          case ZenToggle =>
        }
      }
    } else {
      forall a: Action ensures valid(Spec(f.hotkeys, a)) {
        assert valid(Spec(s.front.hotkeys, a));
      }
    }
  }

  /** For instance: a blob that only binds the zen hotkey, to something invalid, is accepted and stored. */
  lemma InvalidHotkeyIsStored(valid: string -> bool, s: Settings, bad: string)
    requires valid("") && !valid(bad) && 1 <= s.front.look.chatMaxLines
    requires 0 <= s.front.volume <= 200 && s.front.chatNotificationLevel in LEVELS
    ensures var blob := s.(front := s.front.(hotkeys := map[ZenToggle := bad]));
            Refused(valid, SaveBlob(blob)) == None && !AllHotkeysValid(valid, Candidate(s, SaveBlob(blob)).front)
  {
    var blob := s.(front := s.front.(hotkeys := map[ZenToggle := bad]));
    assert Spec(Candidate(s, SaveBlob(blob)).front.hotkeys, ZenToggle) == bad;
  }

  // ---------------------------------------------------------------------------------------------
  // The store

  /** The App's settings fields and the settings file. */
  class Store {
    var settings: Settings
    var generation: nat
    var disk: Option<Settings>

    constructor (loaded: Settings)
      ensures settings == Normalize(loaded) && generation == 0 && disk == None
    {
      settings := Normalize(loaded);
      generation := 0;
      disk := None;
    }

    /** updateSettings, run by the one holder of the transaction lock; `written` is the writer's outcome. */
    method UpdateSettings(m: Mutation, written: bool) returns (ticket: Option<nat>)
      modifies this
      ensures !written ==> ticket == None && unchanged(this)
      ensures written ==> settings == Candidate(old(settings), m) && disk == Some(settings)
      ensures written ==> generation == old(generation) + 1 && ticket == Some(generation)
    {
      var committed := settings;
      var candidate := Normalize(Mutate(committed, m));
      if !written {
        return None;
      }
      disk := Some(candidate);
      settings := candidate;
      generation := generation + 1;
      ticket := Some(generation);
    }
  }

  lemma WithoutAppend(recents: seq<Recent>, last: Recent, rec: Recent)
    ensures Without(recents + [last], rec) ==
            if SameServer(last, rec) then Without(recents, rec) else Without(recents, rec) + [last]
  {
    assert (recents + [last])[..|recents|] == recents;
  }

  /** The merge RecordRecent performs inside its transaction. */
  method MergeRecent(recents: seq<Recent>, rec: Recent) returns (out: seq<Recent>)
    ensures out == AddRecent(recents, rec)
  {
    out := [rec];
    for i := 0 to |recents|
      invariant out == [rec] + Without(recents[..i], rec)
    {
      var r := recents[i];
      assert recents[..i + 1] == recents[..i] + [r];
      WithoutAppend(recents[..i], r, rec);
      if r.addr == rec.addr && r.nickname == rec.nickname {
        continue;
      }
      out := out + [r];
    }
    assert recents[..|recents|] == recents;
    if |out| > MAX_RECENTS {
      out := out[..MAX_RECENTS];
    }
  }

  // ---------------------------------------------------------------------------------------------
  // Committed histories

  /** The settings after the mutations of `log`, in order. */
  function Fold(start: Settings, log: seq<Mutation>): Settings
    decreases |log|
  {
    if log == [] then start else Candidate(Fold(start, log[..|log| - 1]), log[|log| - 1])
  }

  lemma FoldAppend(start: Settings, log: seq<Mutation>, m: Mutation)
    ensures Fold(start, log + [m]) == Candidate(Fold(start, log), m)
  {
    assert (log + [m])[..|log|] == log;
  }

  /** Once normalized, always in range. */
  lemma {:induction false} FoldStaysInRange(start: Settings, log: seq<Mutation>)
    requires InRange(start)
    ensures InRange(Fold(start, log))
  {
    if log == [] {
    } else {
      NormalizeReachesRange(Mutate(Fold(start, log[..|log| - 1]), log[|log| - 1]));
    }
  }

  ghost predicate ValidAfter(valid: string -> bool, start: Settings, log: seq<Mutation>) {
    AllHotkeysValid(valid, Fold(start, log).front)
  }

  ghost predicate AlwaysValid(valid: string -> bool, start: Settings, log: seq<Mutation>) {
    forall n :: 0 <= n <= |log| ==> ValidAfter(valid, start, log[..n])
  }

  predicate BlobValid(valid: string -> bool, m: Mutation) {
    m.SaveBlob? ==> UncheckedValid(valid, m.blob.front)
  }

  ghost predicate BlobsValid(valid: string -> bool, log: seq<Mutation>) {
    forall i :: 0 <= i < |log| ==> BlobValid(valid, log[i])
  }

  lemma AlwaysValidSplits(valid: string -> bool, start: Settings, log: seq<Mutation>)
    requires log != []
    ensures AlwaysValid(valid, start, log) <==>
            AlwaysValid(valid, start, log[..|log| - 1]) && ValidAfter(valid, start, log)
  {
    var front := log[..|log| - 1];
    assert forall n :: 0 <= n <= |front| ==> front[..n] == log[..n];
    assert log[..|log|] == log;
    if AlwaysValid(valid, start, log) {
      forall n | 0 <= n <= |front| ensures ValidAfter(valid, start, front[..n]) {
        assert ValidAfter(valid, start, log[..n]);
      }
      assert ValidAfter(valid, start, log[..|log|]);
    }
    if AlwaysValid(valid, start, front) && ValidAfter(valid, start, log) {
      forall n | 0 <= n <= |log| ensures ValidAfter(valid, start, log[..n]) {
        assert n <= |front| ==> ValidAfter(valid, start, front[..n]);
      }
    }
  }

  /** Over a whole history of accepted mutations, the stored hotkeys are valid at every moment exactly when every
      saved blob also had the four unchecked ones valid. */
  lemma {:induction false} HotkeysAlwaysValidIff(valid: string -> bool, start: Settings, log: seq<Mutation>)
    requires AllHotkeysValid(valid, start.front) && forall i :: 0 <= i < |log| ==> Refused(valid, log[i]) == None
    ensures AlwaysValid(valid, start, log) <==> BlobsValid(valid, log)
  {
    if log == [] {
      assert ValidAfter(valid, start, log[..0]);
    } else {
      var front, last := log[..|log| - 1], log[|log| - 1];
      HotkeysAlwaysValidIff(valid, start, front);
      AlwaysValidSplits(valid, start, log);
      assert BlobsValid(valid, log) <==> BlobsValid(valid, front) && BlobValid(valid, last) by {
        assert log == front + [last];
      }
      if AlwaysValid(valid, start, front) {
        assert front[..|front|] == front;
        assert ValidAfter(valid, start, front[..|front|]);
        HotkeysStayValidIff(valid, Fold(start, front), last);
      }
    }
  }

  // The last writer of each field

  function OnTopAfter(start: Settings, log: seq<Mutation>): bool {
    if log == [] then start.front.alwaysOnTop
    else
      var last := log[|log| - 1];
      if last.OnTop? then last.on
      else if last.SaveBlob? then last.blob.front.alwaysOnTop
      else OnTopAfter(start, log[..|log| - 1])
  }

  /** What was asked for, before clamping. */
  function OpacityAsked(start: Settings, log: seq<Mutation>): int {
    if log == [] then start.front.windowOpacity
    else
      var last := log[|log| - 1];
      if last.Opacity? then last.percent
      else if last.SaveBlob? then last.blob.front.windowOpacity
      else OpacityAsked(start, log[..|log| - 1])
  }

  /** The spec a mutation gives for an action, if it gives one. */
  function SpecGiven(m: Mutation, a: Action): Option<string> {
    match m
    case SaveBlob(blob) => Some(Spec(blob.front.hotkeys, a))
    case OneHotkey(action, spec) => if action == a then Some(spec) else None
    case ThreeHotkeys(ptt, mute, reply) =>
      (match a case Ptt => Some(ptt) case MuteToggle => Some(mute) case WhisperReply => Some(reply) case _ => None)
    case _ => None
  }

  function HotkeyAfter(start: Settings, log: seq<Mutation>, a: Action): string {
    if log == [] then Spec(start.front.hotkeys, a)
    else
      var given := SpecGiven(log[|log| - 1], a);
      if given.Some? then given.value else HotkeyAfter(start, log[..|log| - 1], a)
  }

  /** The last saved blob, or the loaded settings: what every field without a setter of its own comes from. */
  function BlobAfter(start: Settings, log: seq<Mutation>): Settings {
    if log == [] then start
    else if log[|log| - 1].SaveBlob? then log[|log| - 1].blob
    else BlobAfter(start, log[..|log| - 1])
  }

  function VersionAfter(start: Settings, log: seq<Mutation>): string {
    if log == [] then start.owned.lastSeenVersion
    else if log[|log| - 1].SawVersion? then log[|log| - 1].version
    else VersionAfter(start, log[..|log| - 1])
  }

  function IdentityAfter(start: Settings, log: seq<Mutation>): string {
    if log == [] then start.owned.activeIdentity
    else if log[|log| - 1].ChoseIdentity? then log[|log| - 1].id
    else IdentityAfter(start, log[..|log| - 1])
  }

  /** The integer in a range that is nearest to a value. */
  ghost predicate Nearest(r: int, value: int, min: int, max: int) {
    min <= r <= max && forall x :: min <= x <= max ==> Distance(r, value) <= Distance(x, value)
  }

  function Distance(a: int, b: int): nat {
    if a < b then b - a else a - b
  }

  /** Clamping goes to the nearest value in range, and there is only one. */
  lemma ClampIsNearest(value: int, min: int, max: int, r: int)
    requires min <= max
    ensures Nearest(r, value, min, max) <==> r == Clamp(value, min, max)
  {
    var c := Clamp(value, min, max);
    if Nearest(r, value, min, max) {
      assert Distance(r, value) <= Distance(c, value);
    }
  }

  /** The presentation values are the nearest in range; a panel width of zero is kept. */
  ghost predicate NearestLook(l: Look, asked: Look) {
    && l.soundPack == "noxa"
    && Nearest(l.soundVolume, asked.soundVolume, 0, 200) && Nearest(l.speechVolume, asked.speechVolume, 0, 200)
    && Nearest(l.uiFontSize, asked.uiFontSize, 10, 20) && Nearest(l.chatFontSize, asked.chatFontSize, 12, 18)
    && (if asked.sidebarWidth == 0 then l.sidebarWidth == 0 else Nearest(l.sidebarWidth, asked.sidebarWidth, 160, 560))
    && (if asked.detailsWidth == 0 then l.detailsWidth == 0 else Nearest(l.detailsWidth, asked.detailsWidth, 160, 560))
    && Nearest(l.chatMaxLines, asked.chatMaxLines, 10, 5000)
  }

  lemma NormalizedLookIsNearest(asked: Look)
    ensures NearestLook(NormalizeLook(asked), asked)
  {
    var l := NormalizeLook(asked);
    ClampIsNearest(asked.soundVolume, 0, 200, l.soundVolume);
    ClampIsNearest(asked.speechVolume, 0, 200, l.speechVolume);
    ClampIsNearest(asked.uiFontSize, 10, 20, l.uiFontSize);
    ClampIsNearest(asked.chatFontSize, 12, 18, l.chatFontSize);
    ClampIsNearest(asked.sidebarWidth, 160, 560, l.sidebarWidth);
    ClampIsNearest(asked.detailsWidth, 160, 560, l.detailsWidth);
    ClampIsNearest(asked.chatMaxLines, 10, 5000, l.chatMaxLines);
  }

  /** The front fields are those of the last mutation that wrote each of them. */
  ghost predicate FrontIsLastWritten(f: Front, start: Settings, log: seq<Mutation>) {
    var blob := BlobAfter(start, log).front;
    && f.alwaysOnTop == OnTopAfter(start, log)
    && Nearest(f.windowOpacity, OpacityAsked(start, log), 20, 100)
    && (forall a: Action :: Spec(f.hotkeys, a) == HotkeyAfter(start, log, a))
    && NearestLook(f.look, blob.look)
    && f.volume == blob.volume && f.chatNotificationLevel == blob.chatNotificationLevel && f.rest == blob.rest
  }

  lemma NothingWritten(start: Settings)
    requires InRange(start)
    ensures FrontIsLastWritten(start.front, start, [])
  {
  }

  lemma HotkeyStep(s: Settings, m: Mutation, a: Action)
    ensures Spec(Candidate(s, m).front.hotkeys, a) ==
            var given := SpecGiven(m, a); if given.Some? then given.value else Spec(s.front.hotkeys, a)
  {
  }

  /** One more mutation of normalized settings. */
  lemma MutationWritesItsOwn(s: Settings, start: Settings, log: seq<Mutation>)
    requires log != [] && InRange(s) && FrontIsLastWritten(s.front, start, log[..|log| - 1])
    ensures FrontIsLastWritten(Candidate(s, log[|log| - 1]).front, start, log)
  {
    var m := log[|log| - 1];
    var f := Candidate(s, m).front;
    forall a: Action ensures Spec(f.hotkeys, a) == HotkeyAfter(start, log, a) {
      HotkeyStep(s, m, a);
    }
    if m.SaveBlob? {
      ClampIsNearest(m.blob.front.windowOpacity, 20, 100, f.windowOpacity);
      NormalizedLookIsNearest(m.blob.front.look);
    } else {
      NormalizeReachesRange(s);
      if m.Opacity? {
        ClampIsNearest(m.percent, 20, 100, f.windowOpacity);
      }
    }
  }

  lemma {:induction false} FrontIsLast(start: Settings, log: seq<Mutation>)
    requires InRange(start)
    ensures FrontIsLastWritten(Fold(start, log).front, start, log)
  {
    if log == [] {
      NothingWritten(start);
    } else {
      var front := log[..|log| - 1];
      FrontIsLast(start, front);
      FoldStaysInRange(start, front);
      MutationWritesItsOwn(Fold(start, front), start, log);
    }
  }

  lemma {:induction false} OwnedIsLast(start: Settings, log: seq<Mutation>)
    ensures Fold(start, log).owned.lastSeenVersion == VersionAfter(start, log)
    ensures Fold(start, log).owned.activeIdentity == IdentityAfter(start, log)
  {
    if log == [] {
    } else {
      OwnedIsLast(start, log[..|log| - 1]);
    }
  }

  /** After every committed history, each field is that of the last mutation that wrote it, read off the history:
      the always-on-top flag and each of the seven hotkeys as given, the opacity as the nearest value in range, the
      version and the identity as last set, and everything else from the last saved blob. */
  lemma LastWriterWins(start: Settings, log: seq<Mutation>)
    requires InRange(start)
    ensures FrontIsLastWritten(Fold(start, log).front, start, log)
    ensures Fold(start, log).owned.lastSeenVersion == VersionAfter(start, log)
    ensures Fold(start, log).owned.activeIdentity == IdentityAfter(start, log)
  {
    FrontIsLast(start, log);
    OwnedIsLast(start, log);
  }

  // Which calls are accepted

  /** SaveSettings accepts a blob exactly when its three checked hotkeys parse, its line limit is positive, its volume
      is in range and its notification level is one of the four. */
  lemma SaveAcceptedIff(valid: string -> bool, f: Front)
    ensures SaveRefusal(valid, f) == None <==>
            && (forall a :: a in {Ptt, MuteToggle, WhisperReply} ==> valid(Spec(f.hotkeys, a)))
            && f.look.chatMaxLines >= 1 && 0 <= f.volume <= 200
            && f.chatNotificationLevel in {"direct", "channel_mentions", "role_mentions", "all"}
  {
    var asked: set<Action> := {Ptt, MuteToggle, WhisperReply};
    assert Ptt in asked && MuteToggle in asked && WhisperReply in asked;
  }

  /** The other calls are refused exactly for a spec that does not parse, or for an empty address. */
  lemma OthersAcceptedIff(valid: string -> bool, m: Mutation)
    requires !m.SaveBlob?
    ensures Refused(valid, m) == None <==>
            && (forall a: Action :: SpecGiven(m, a).Some? ==> valid(SpecGiven(m, a).value))
            && (m.Connected? ==> m.recent.addr != "")
  {
    if m.ThreeHotkeys? {
      assert SpecGiven(m, Ptt) == Some(m.ptt) && SpecGiven(m, MuteToggle) == Some(m.mute);
      assert SpecGiven(m, WhisperReply) == Some(m.reply);
    } else if m.OneHotkey? {
      assert SpecGiven(m, m.action) == Some(m.spec);
    }
  }

  // Go-owned fields

  predicate GoSide(m: Mutation) {
    m.Connected? || m.SawVersion? || m.ChoseIdentity?
  }

  function GoSideOf(log: seq<Mutation>): seq<Mutation> {
    if log == [] then []
    else
      var front, last := log[..|log| - 1], log[|log| - 1];
      if GoSide(last) then GoSideOf(front) + [last] else GoSideOf(front)
  }

  function GoApply(owned: GoOwned, m: Mutation): GoOwned {
    match m
    case Connected(rec) => owned.(recents := AddRecent(owned.recents, rec))
    case SawVersion(version) => owned.(lastSeenVersion := version)
    case ChoseIdentity(id) => owned.(activeIdentity := id)
    case _ => owned
  }

  function GoFold(start: GoOwned, log: seq<Mutation>): GoOwned {
    if log == [] then start else GoApply(GoFold(start, log[..|log| - 1]), log[|log| - 1])
  }

  /** The Go-owned fields are a function of the Go-side mutations alone: no blob the frontend saves, however
      stale, can change or revert them. */
  lemma {:induction false} GoFieldsIgnoreBlobs(start: Settings, log: seq<Mutation>)
    ensures Fold(start, log).owned == GoFold(start.owned, GoSideOf(log))
  {
    if log == [] {
    } else {
      var front, last := log[..|log| - 1], log[|log| - 1];
      GoFieldsIgnoreBlobs(start, front);
      if GoSide(last) {
        assert (GoSideOf(front) + [last])[..|GoSideOf(front)|] == GoSideOf(front);
      }
    }
  }

  /** A saved blob replaces everything else, up to clamping, and nothing before it shows through. */
  lemma SaveReplacesTheRest(start: Settings, log: seq<Mutation>, blob: Settings)
    ensures Fold(start, log + [SaveBlob(blob)]).front == Normalize(blob).front
  {
    FoldAppend(start, log, SaveBlob(blob));
  }

  // Recent servers

  /** Walks back through the connects, newest first, listing each server the first time it is met; what was
      known before the first connect comes last. */
  function NewestFirst(before: seq<Recent>, connects: seq<Recent>, met: seq<Recent>): seq<Recent>
    decreases |connects|
  {
    if connects == [] then Unmet(before, met)
    else
      var front, last := connects[..|connects| - 1], connects[|connects| - 1];
      if Met(last, met) then NewestFirst(before, front, met)
      else [last] + NewestFirst(before, front, met + [last])
  }

  predicate Met(rec: Recent, met: seq<Recent>) {
    exists i :: 0 <= i < |met| && SameServer(met[i], rec)
  }

  function Unmet(recents: seq<Recent>, met: seq<Recent>): seq<Recent> {
    if recents == [] then []
    else
      var front, last := recents[..|recents| - 1], recents[|recents| - 1];
      if Met(last, met) then Unmet(front, met) else Unmet(front, met) + [last]
  }

  ghost predicate DistinctServers(recents: seq<Recent>) {
    forall i, j :: 0 <= i < j < |recents| ==> !SameServer(recents[i], recents[j])
  }

  function RecentsAfter(before: seq<Recent>, connects: seq<Recent>): seq<Recent> {
    if connects == [] then before
    else AddRecent(RecentsAfter(before, connects[..|connects| - 1]), connects[|connects| - 1])
  }

  lemma MetAppend(r: Recent, met: seq<Recent>, rec: Recent)
    ensures Met(r, met + [rec]) <==> Met(r, met) || SameServer(rec, r)
  {
    var met' := met + [rec];
    if Met(r, met) {
      var i :| 0 <= i < |met| && SameServer(met[i], r);
      assert SameServer(met'[i], r);
    }
    if SameServer(rec, r) {
      assert SameServer(met'[|met|], r);
    }
  }

  lemma {:induction false} UnmetAppend(recents: seq<Recent>, met: seq<Recent>, rec: Recent)
    ensures Unmet(recents, met + [rec]) == Without(Unmet(recents, met), rec)
  {
    if recents == [] {
    } else {
      var front, last := recents[..|recents| - 1], recents[|recents| - 1];
      UnmetAppend(front, met, rec);
      MetAppend(last, met, rec);
      WithoutAppend(Unmet(front, met), last, rec);
    }
  }

  lemma {:induction false} WithoutPrepend(first: Recent, recents: seq<Recent>, rec: Recent)
    ensures Without([first] + recents, rec) == (if SameServer(first, rec) then [] else [first]) + Without(recents, rec)
  {
    var head := if SameServer(first, rec) then [] else [first];
    if recents == [] {
      assert [first] + recents == [] + [first];
      WithoutAppend([], first, rec);
    } else {
      var front, last := recents[..|recents| - 1], recents[|recents| - 1];
      WithoutPrepend(first, front, rec);
      assert [first] + recents == ([first] + front) + [last];
      WithoutAppend([first] + front, last, rec);
      assert (head + Without(front, rec)) + [last] == head + (Without(front, rec) + [last]);
    }
  }

  lemma {:induction false} WithoutCommutes(recents: seq<Recent>, a: Recent, b: Recent)
    ensures Without(Without(recents, a), b) == Without(Without(recents, b), a)
  {
    if recents == [] {
    } else {
      var front, last := recents[..|recents| - 1], recents[|recents| - 1];
      WithoutCommutes(front, a, b);
      WithoutAppend(Without(front, a), last, b);
      WithoutAppend(Without(front, b), last, a);
    }
  }

  /** Having met one more server removes exactly that server from the walk. */
  lemma {:induction false} NewestFirstMet(before: seq<Recent>, connects: seq<Recent>, met: seq<Recent>, rec: Recent)
    ensures NewestFirst(before, connects, met + [rec]) == Without(NewestFirst(before, connects, met), rec)
    decreases |connects|
  {
    if connects == [] {
      UnmetAppend(before, met, rec);
    } else {
      var front, last := connects[..|connects| - 1], connects[|connects| - 1];
      MetAppend(last, met, rec);
      if Met(last, met) {
        NewestFirstMet(before, front, met, rec);
      } else {
        var rest := NewestFirst(before, front, met);
        NewestFirstMet(before, front, met, rec);
        NewestFirstMet(before, front, met, last);
        WithoutPrepend(last, NewestFirst(before, front, met + [last]), rec);
        if SameServer(last, rec) {
          WithoutSame(rest, last, rec);
        } else {
          NewestFirstMet(before, front, met + [rec], last);
          WithoutCommutes(rest, last, rec);
        }
      }
    }
  }

  lemma {:induction false} WithoutSame(recents: seq<Recent>, a: Recent, b: Recent)
    requires SameServer(a, b)
    ensures Without(recents, a) == Without(recents, b) && Without(Without(recents, a), b) == Without(recents, a)
  {
    if recents == [] {
    } else {
      var front, last := recents[..|recents| - 1], recents[|recents| - 1];
      WithoutSame(front, a, b);
      WithoutAppend(Without(front, a), last, b);
    }
  }

  lemma {:induction false} WithoutGone(recents: seq<Recent>, rec: Recent)
    requires forall i :: 0 <= i < |recents| ==> !SameServer(recents[i], rec)
    ensures Without(recents, rec) == recents
  {
    if recents == [] {
    } else {
      WithoutGone(recents[..|recents| - 1], rec);
    }
  }

  lemma {:induction false} WithoutSplits(a: seq<Recent>, b: seq<Recent>, rec: Recent)
    ensures Without(a + b, rec) == Without(a, rec) + Without(b, rec)
  {
    if b == [] {
      assert a + b == a;
    } else {
      var front, last := b[..|b| - 1], b[|b| - 1];
      WithoutSplits(a, front, rec);
      assert a + b == (a + front) + [last];
      WithoutAppend(a + front, last, rec);
    }
  }

  lemma {:induction false} WithoutLength(recents: seq<Recent>, rec: Recent)
    requires DistinctServers(recents)
    ensures |recents| - 1 <= |Without(recents, rec)| <= |recents|
  {
    if recents == [] {
    } else {
      var front, last := recents[..|recents| - 1], recents[|recents| - 1];
      if SameServer(last, rec) {
        WithoutGone(front, rec);
      } else {
        WithoutLength(front, rec);
      }
    }
  }

  /** Capping before or after a server moves to the front makes no difference, as long as no server is listed
      twice. */
  lemma CapCommutes(recents: seq<Recent>, rec: Recent)
    requires DistinctServers(recents)
    ensures AddRecent(Take(recents, MAX_RECENTS), rec) == Take([rec] + Without(recents, rec), MAX_RECENTS)
  {
    if |recents| > MAX_RECENTS {
      var kept, cut := recents[..MAX_RECENTS], recents[MAX_RECENTS..];
      assert recents == kept + cut;
      WithoutSplits(kept, cut, rec);
      WithoutLength(kept, rec);
    }
  }

  lemma {:induction false} WithoutKeepsDistinct(recents: seq<Recent>, rec: Recent)
    requires DistinctServers(recents)
    ensures DistinctServers(Without(recents, rec))
    ensures forall r :: r in Without(recents, rec) <==> r in recents && !SameServer(r, rec)
  {
    if recents == [] {
    } else {
      var front, last := recents[..|recents| - 1], recents[|recents| - 1];
      WithoutKeepsDistinct(front, rec);
      assert recents == front + [last];
      assert forall i :: 0 <= i < |Without(front, rec)| ==> Without(front, rec)[i] in front;
    }
  }

  lemma {:induction false} UnmetNothing(recents: seq<Recent>)
    ensures Unmet(recents, []) == recents
  {
    if recents == [] {
    } else {
      UnmetNothing(recents[..|recents| - 1]);
    }
  }

  lemma NewestFirstAppend(before: seq<Recent>, connects: seq<Recent>, rec: Recent)
    ensures NewestFirst(before, connects + [rec], []) == [rec] + Without(NewestFirst(before, connects, []), rec)
  {
    assert (connects + [rec])[..|connects|] == connects;
    NewestFirstMet(before, connects, [], rec);
  }

  lemma {:induction false} NewestFirstDistinct(before: seq<Recent>, connects: seq<Recent>)
    requires DistinctServers(before)
    ensures DistinctServers(NewestFirst(before, connects, []))
  {
    if connects == [] {
      UnmetNothing(before);
    } else {
      var front, last := connects[..|connects| - 1], connects[|connects| - 1];
      assert connects == front + [last];
      NewestFirstDistinct(before, front);
      NewestFirstAppend(before, front, last);
      var all := NewestFirst(before, front, []);
      WithoutKeepsDistinct(all, last);
      forall j | 0 <= j < |Without(all, last)| ensures !SameServer(Without(all, last)[j], last) {
        assert Without(all, last)[j] in Without(all, last);
      }
    }
  }

  /** The list kept step by step, capped at every step, is the ten newest distinct servers of the whole
      history. */
  lemma {:induction false} RecentsAreNewestServers(before: seq<Recent>, connects: seq<Recent>)
    requires DistinctServers(before) && |before| <= MAX_RECENTS
    ensures RecentsAfter(before, connects) == Take(NewestFirst(before, connects, []), MAX_RECENTS)
  {
    if connects == [] {
      UnmetNothing(before);
    } else {
      var front, last := connects[..|connects| - 1], connects[|connects| - 1];
      assert connects == front + [last];
      RecentsAreNewestServers(before, front);
      NewestFirstDistinct(before, front);
      NewestFirstAppend(before, front, last);
      CapCommutes(NewestFirst(before, front, []), last);
    }
  }

  function ConnectsOf(log: seq<Mutation>): seq<Recent> {
    if log == [] then []
    else
      var front, last := log[..|log| - 1], log[|log| - 1];
      if last.Connected? then ConnectsOf(front) + [last.recent] else ConnectsOf(front)
  }

  /** The same, for the list found in the settings after any committed history. */
  lemma {:induction false} RecentsInSettings(start: Settings, log: seq<Mutation>)
    ensures Fold(start, log).owned.recents == RecentsAfter(start.owned.recents, ConnectsOf(log))
  {
    if log == [] {
    } else {
      var front, last := log[..|log| - 1], log[|log| - 1];
      RecentsInSettings(start, front);
      if last.Connected? {
        assert (ConnectsOf(front) + [last.recent])[..|ConnectsOf(front)|] == ConnectsOf(front);
      }
    }
  }
}
