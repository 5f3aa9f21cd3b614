/**
 * The support relay: private messages from users are filtered, classified
 * and relayed into a topic of the staff group, every relayed message's id
 * is remembered against the sender, and a staff reply to any relayed
 * message is routed back to that sender.
 */
module Bot {
  import opened Wrappers
  import opened Builtins
  import opened Telegram
  import Config

  // ---------------------------------------------------------------------
  // Inbound messages

  /** The sender of a message; `username` is the optional public handle. */
  datatype User = User(id: int, fullName: string, username: Option<string>)

  /**
   * An inbound message, with the fields the relay reads. `photo` lists the
   * sizes of an attached photo (empty when there is none); the other
   * attachments are given by their file id; `replyTo` is the id of the
   * message this one answers, if any.
   */
  datatype Message = Message(
    messageId: int,
    chatId: int,
    from: Option<User>,
    text: Option<string>,
    caption: Option<string>,
    photo: seq<string>,
    video: Option<string>,
    document: Option<string>,
    animation: Option<string>,
    audio: Option<string>,
    voice: Option<string>,
    replyTo: Option<int>)

  /** Python truthiness of an optional string: present and not empty. */
  predicate Truthy(s: Option<string>) {
    s.Some? && s.value != ""
  }

  // ---------------------------------------------------------------------
  // Identity formatter

  const UnknownUser: string := "Неизвестный пользователь"
  const NoUsername: string := "без username"

  /** The handle part of the identity: `@name`, or a marker when there is none. */
  function Handle(username: Option<string>): (r: string)
    ensures |r| > 0
    ensures r[0] == '@' <==> Truthy(username)
    ensures Truthy(username) ==> r[1..] == username.value
    ensures !Truthy(username) ==> r == NoUsername
  {
    if Truthy(username) then "@" + username.value else NoUsername
  }

  /** The trailing part of the identity that carries the numeric id. */
  function IdTag(id: int): string {
    " (id=" + IntToString(id) + ")"
  }

  /** `_format_user`: `full name (@handle) (id=N)`, or a fixed text without a sender. */
  function FormatUser(from: Option<User>): (r: string)
    ensures from.None? ==> r == UnknownUser
    ensures from.Some? ==>
      var u := from.value;
      var head := u.fullName + " (" + Handle(u.username) + ")";
      |r| == |head| + |IdTag(u.id)| && r[..|head|] == head && r[|head|..] == IdTag(u.id)
  {
    match from
    case None => UnknownUser
    case Some(u) => u.fullName + " (" + Handle(u.username) + ")" + IdTag(u.id)
  }

  /** Two strings ending in `=` followed by a run without `=` agree on that run. */
  lemma SuffixAfterLastEquals(a1: string, t1: string, a2: string, t2: string)
    requires a1 + "=" + t1 == a2 + "=" + t2
    requires forall i :: 0 <= i < |t1| ==> t1[i] != '='
    requires forall i :: 0 <= i < |t2| ==> t2[i] != '='
    ensures t1 == t2
  {
    var s := a1 + "=" + t1;
    assert s[|s| - |t1| - 1] == '=';
    assert s[|s| - |t2| - 1] == '=';
    assert |t1| == |t2|;
    assert t1 == s[|s| - |t1|..] == t2;
  }

  /** The identity determines the numeric id, whatever the name and handle hold. */
  lemma FormatUserIdUnambiguous(u1: User, u2: User)
    requires FormatUser(Some(u1)) == FormatUser(Some(u2))
    ensures u1.id == u2.id
  {
    var f := FormatUser(Some(u1));
    var t1, t2 := IntToString(u1.id), IntToString(u2.id);
    var a1 := u1.fullName + " (" + Handle(u1.username) + ")" + " (id";
    var a2 := u2.fullName + " (" + Handle(u2.username) + ")" + " (id";
    assert f == a1 + "=" + t1 + ")";
    assert f == a2 + "=" + t2 + ")";
    assert f[..|f| - 1] == a1 + "=" + t1;
    assert f[..|f| - 1] == a2 + "=" + t2;
    SuffixAfterLastEquals(a1, t1, a2, t2);
    IntToStringInjective(u1.id, u2.id);
  }

  /** A known sender is never rendered as the unknown-user text. */
  lemma FormatUserKnownIsNotUnknown(u: User)
    ensures FormatUser(Some(u)) != UnknownUser
  {
    var f := FormatUser(Some(u));
    assert f[|f| - 1] == ')';
    assert UnknownUser[|UnknownUser| - 1] == 'ь';
  }

  // ---------------------------------------------------------------------
  // Inbound filter and classification

  /** The sender's id, 0 standing for both a missing sender and id 0. */
  function SenderId(m: Message): int {
    if m.from.Some? then m.from.value.id else 0
  }

  /** One of the menu button labels. */
  predicate IsButtonText(texts: Config.Texts, s: string) {
    s == texts.sendMaterial || s == texts.askQuestion || s == texts.backButton
  }

  /** Text the handler drops: blank once stripped, a command, or a button label. */
  predicate FilteredText(texts: Config.Texts, m: Message)
    ensures FilteredText(texts, m) ==> Truthy(m.text)
    ensures Truthy(m.text) && m.text.value[0] == '/' ==> FilteredText(texts, m)
    ensures Truthy(m.text) && AllSpace(m.text.value) ==> FilteredText(texts, m)
  {
    Truthy(m.text) &&
    var stripped := Strip(m.text.value);
    stripped == [] || stripped[0] == '/' || IsButtonText(texts, stripped)
  }

  /** Any of the six attachment kinds is present. */
  predicate HasMedia(m: Message) {
    |m.photo| > 0 || m.video.Some? || m.document.Some? ||
    m.animation.Some? || m.audio.Some? || m.voice.Some?
  }

  /** What the private-message handler does with a message. */
  datatype Route = Ignore | Material | Question | Unsupported

  function Classify(texts: Config.Texts, m: Message): (r: Route)
    ensures r == Ignore <==> FilteredText(texts, m) || SenderId(m) == 0
    ensures r == Material <==> !FilteredText(texts, m) && SenderId(m) != 0 && HasMedia(m)
    ensures r == Question <==> !FilteredText(texts, m) && SenderId(m) != 0 && !HasMedia(m) && Truthy(m.text)
    ensures r == Unsupported <==> SenderId(m) != 0 && !HasMedia(m) && !Truthy(m.text)
  {
    if FilteredText(texts, m) || SenderId(m) == 0 then Ignore
    else if HasMedia(m) then Material
    else if Truthy(m.text) then Question
    else Unsupported
  }

  /** Text reaching the question path is non-blank, not a command, not a label, from a known sender. */
  lemma QuestionTextIsRelayable(texts: Config.Texts, m: Message)
    requires Classify(texts, m) == Question
    ensures Truthy(m.text) && !HasMedia(m) && SenderId(m) != 0
    ensures var s := Strip(m.text.value); s != [] && s[0] != '/' && !IsButtonText(texts, s)
  {
  }

  /** A button label is ignored however much whitespace surrounds it. */
  lemma PaddedButtonIgnored(texts: Config.Texts, m: Message, pre: string, button: string, post: string)
    requires IsButtonText(texts, button) && Trimmed(button)
    requires AllSpace(pre) && AllSpace(post) && pre + button + post != ""
    requires m.text == Some(pre + button + post)
    ensures Classify(texts, m) == Ignore
  {
    StripPadded(pre, button, post);
  }

  /** An attachment from a known sender always takes the material path, whatever the text. */
  lemma MediaFromKnownSenderIsMaterial(texts: Config.Texts, m: Message)
    requires HasMedia(m) && SenderId(m) != 0 && !FilteredText(texts, m)
    ensures Classify(texts, m) == Material
  {
  }

  /** Without attachment and text, a known sender only gets the unsupported-content answer. */
  lemma NothingToRelayIsUnsupported(texts: Config.Texts, m: Message)
    requires !HasMedia(m) && !Truthy(m.text) && SenderId(m) != 0
    ensures Classify(texts, m) == Unsupported
  {
  }

  // ---------------------------------------------------------------------
  // Outbound texts

  /** `message.answer(text)`: a text in the chat the message came from. */
  function Answer(m: Message, text: string): Call {
    SendMessage(m.chatId, None, text)
  }

  function MaterialHeader(userInfo: string): string {
    "📸 Материал от " + userInfo
  }

  function QuestionPost(userInfo: string, text: string): string {
    "❓ Вопрос от " + userInfo + ":\n" + text
  }

  const ReplyFailureNotice: string := "⚠️ Не удалось отправить сообщение пользователю."

  /** How a handler ends: normally, or with a rejected request it did not catch. */
  datatype Status = Done | Raised

  // ---------------------------------------------------------------------
  // The relay paths, as relations between the state before and after

  /**
   * `_process_material_message`: with the topic configured, copy the
   * message into it, then post the header, recording each delivered id
   * against the sender as it arrives; a rejection stops the sequence and
   * notifies the user; only full success is acknowledged.
   */
  predicate MaterialRelayed(
    cfg: Config.Settings, texts: Config.Texts, m: Message, userId: int, userInfo: string,
    links0: map<int, int>, links1: map<int, int>, log0: seq<Call>, log1: seq<Call>,
    script: seq<Option<int>>, st: Status)
    ensures MaterialRelayed(cfg, texts, m, userId, userInfo, links0, links1, log0, log1, script, st) ==>
      && |log1| > |log0| && log1[..|log0|] == log0
      && links0.Keys <= links1.Keys
      && (forall id :: id in links1 && (id !in links0 || links1[id] != links0[id]) ==> links1[id] == userId)
  {
    var n := |log0|;
    var topic := cfg.topicMaterial;
    var copy := CopyMessage(cfg.adminChatId, Some(topic), m.chatId, m.messageId);
    var header := SendMessage(cfg.adminChatId, Some(topic), MaterialHeader(userInfo));
    var notice := Answer(m, texts.deliveryError);
    if topic == 0 then
      log1 == log0 + [notice] && links1 == links0 && st == Done
    else if OutcomeAt(script, n).None? then
      log1 == log0 + [copy, notice] && links1 == links0 && st == Done
    else if OutcomeAt(script, n + 1).None? then
      log1 == log0 + [copy, header, notice]
      && links1 == links0[OutcomeAt(script, n).value := userId]
      && st == Done
    else
      log1 == log0 + [copy, header, Answer(m, texts.materialSent)]
      && links1 == links0[OutcomeAt(script, n).value := userId][OutcomeAt(script, n + 1).value := userId]
      && st == (if OutcomeAt(script, n + 2).Some? then Done else Raised)
  }

  /**
   * `_process_question_message`: with the topic configured, post one
   * message holding the identity and the text, record its id against the
   * sender and acknowledge; a rejection notifies the user instead.
   */
  predicate QuestionRelayed(
    cfg: Config.Settings, texts: Config.Texts, m: Message, userId: int, userInfo: string,
    links0: map<int, int>, links1: map<int, int>, log0: seq<Call>, log1: seq<Call>,
    script: seq<Option<int>>, st: Status)
    ensures QuestionRelayed(cfg, texts, m, userId, userInfo, links0, links1, log0, log1, script, st) ==>
      && |log1| > |log0| && log1[..|log0|] == log0
      && links0.Keys <= links1.Keys
      && (forall id :: id in links1 && (id !in links0 || links1[id] != links0[id]) ==> links1[id] == userId)
  {
    var n := |log0|;
    var topic := cfg.topicQuestion;
    var text := if m.text.Some? then m.text.value else "";
    var post := SendMessage(cfg.adminChatId, Some(topic), QuestionPost(userInfo, text));
    if topic == 0 then
      log1 == log0 + [Answer(m, texts.deliveryError)] && links1 == links0 && st == Done
    else if OutcomeAt(script, n).None? then
      log1 == log0 + [post, Answer(m, texts.deliveryError)] && links1 == links0 && st == Done
    else
      log1 == log0 + [post, Answer(m, texts.questionSent)]
      && links1 == links0[OutcomeAt(script, n).value := userId]
      && st == (if OutcomeAt(script, n + 1).Some? then Done else Raised)
  }

  /** `handle_user_message`: what one private message does to the links and the outbound log. */
  predicate UserMessageHandled(
    cfg: Config.Settings, texts: Config.Texts, m: Message,
    links0: map<int, int>, links1: map<int, int>, log0: seq<Call>, log1: seq<Call>,
    script: seq<Option<int>>, st: Status)
    ensures UserMessageHandled(cfg, texts, m, links0, links1, log0, log1, script, st) ==>
      && |log1| >= |log0| && log1[..|log0|] == log0
      && links0.Keys <= links1.Keys
  {
    match Classify(texts, m)
    case Ignore =>
      log1 == log0 && links1 == links0 && st == Done
    case Unsupported =>
      log1 == log0 + [Answer(m, texts.unsupportedContent)] && links1 == links0
      && st == (if OutcomeAt(script, |log0|).Some? then Done else Raised)
    case Material =>
      MaterialRelayed(cfg, texts, m, SenderId(m), FormatUser(m.from), links0, links1, log0, log1, script, st)
    case Question =>
      QuestionRelayed(cfg, texts, m, SenderId(m), FormatUser(m.from), links0, links1, log0, log1, script, st)
  }

  /** Ignored messages send nothing and leave the links alone. */
  lemma IgnoredMessageIsSilent(
    cfg: Config.Settings, texts: Config.Texts, m: Message,
    links0: map<int, int>, links1: map<int, int>, log0: seq<Call>, log1: seq<Call>,
    script: seq<Option<int>>, st: Status)
    requires UserMessageHandled(cfg, texts, m, links0, links1, log0, log1, script, st)
    requires FilteredText(texts, m) || SenderId(m) == 0
    ensures log1 == log0 && links1 == links0 && st == Done
  {
  }

  /**
   * Handling a private message never removes or rewrites a link except to
   * point it at the message's sender, who is never 0.
   */
  lemma UserMessageOnlyAddsLinks(
    cfg: Config.Settings, texts: Config.Texts, m: Message,
    links0: map<int, int>, links1: map<int, int>, log0: seq<Call>, log1: seq<Call>,
    script: seq<Option<int>>, st: Status)
    requires UserMessageHandled(cfg, texts, m, links0, links1, log0, log1, script, st)
    ensures links0.Keys <= links1.Keys
    ensures forall id :: id in links1 && (id !in links0 || links1[id] != links0[id]) ==>
      links1[id] == SenderId(m) && SenderId(m) != 0
  {
  }

  /**
   * A fully delivered material: copy, header and one acknowledgement, in
   * that order, and both relayed ids resolve to the sender.
   */
  lemma MaterialSuccess(
    cfg: Config.Settings, texts: Config.Texts, m: Message, userId: int, userInfo: string,
    links0: map<int, int>, links1: map<int, int>, log0: seq<Call>, log1: seq<Call>,
    script: seq<Option<int>>, st: Status, copyId: int, headerId: int)
    requires MaterialRelayed(cfg, texts, m, userId, userInfo, links0, links1, log0, log1, script, st)
    requires cfg.topicMaterial != 0 && userId != 0
    requires OutcomeAt(script, |log0|) == Some(copyId) && OutcomeAt(script, |log0| + 1) == Some(headerId)
    ensures log1[|log0|..] == [
      CopyMessage(cfg.adminChatId, Some(cfg.topicMaterial), m.chatId, m.messageId),
      SendMessage(cfg.adminChatId, Some(cfg.topicMaterial), MaterialHeader(userInfo)),
      Answer(m, texts.materialSent)]
    ensures Lookup(links1, Some(copyId)) == Some(userId)
    ensures Lookup(links1, Some(headerId)) == Some(userId)
  {
  }

  /** When the header is rejected, the copy's link is kept and no acknowledgement is sent. */
  lemma MaterialHeaderFailureKeepsCopyLink(
    cfg: Config.Settings, texts: Config.Texts, m: Message, userId: int, userInfo: string,
    links0: map<int, int>, links1: map<int, int>, log0: seq<Call>, log1: seq<Call>,
    script: seq<Option<int>>, st: Status, copyId: int)
    requires MaterialRelayed(cfg, texts, m, userId, userInfo, links0, links1, log0, log1, script, st)
    requires cfg.topicMaterial != 0 && userId != 0 && texts.materialSent != texts.deliveryError
    requires OutcomeAt(script, |log0|) == Some(copyId) && OutcomeAt(script, |log0| + 1).None?
    ensures Lookup(links1, Some(copyId)) == Some(userId)
    ensures log1[|log1| - 1] == Answer(m, texts.deliveryError)
    ensures Answer(m, texts.materialSent) !in log1[|log0|..]
  {
    assert log1[|log0|..] == [
      CopyMessage(cfg.adminChatId, Some(cfg.topicMaterial), m.chatId, m.messageId),
      SendMessage(cfg.adminChatId, Some(cfg.topicMaterial), MaterialHeader(userInfo)),
      Answer(m, texts.deliveryError)];
  }

  /** A delivered question: one post into the question topic, its id resolving to the sender, one acknowledgement. */
  lemma QuestionSuccess(
    cfg: Config.Settings, texts: Config.Texts, m: Message, userId: int, userInfo: string,
    links0: map<int, int>, links1: map<int, int>, log0: seq<Call>, log1: seq<Call>,
    script: seq<Option<int>>, st: Status, postId: int)
    requires QuestionRelayed(cfg, texts, m, userId, userInfo, links0, links1, log0, log1, script, st)
    requires cfg.topicQuestion != 0 && userId != 0 && m.text.Some?
    requires OutcomeAt(script, |log0|) == Some(postId)
    ensures log1[|log0|..] == [
      SendMessage(cfg.adminChatId, Some(cfg.topicQuestion), QuestionPost(userInfo, m.text.value)),
      Answer(m, texts.questionSent)]
    ensures Lookup(links1, Some(postId)) == Some(userId)
  {
  }

  /** An unconfigured topic (0) sends nothing into the staff group and only notifies the user. */
  lemma ZeroTopicDisablesRelay(
    cfg: Config.Settings, texts: Config.Texts, m: Message,
    links0: map<int, int>, links1: map<int, int>, log0: seq<Call>, log1: seq<Call>,
    script: seq<Option<int>>, st: Status)
    requires UserMessageHandled(cfg, texts, m, links0, links1, log0, log1, script, st)
    requires Classify(texts, m) == Material ==> cfg.topicMaterial == 0
    requires Classify(texts, m) == Question ==> cfg.topicQuestion == 0
    requires Classify(texts, m) in {Material, Question}
    ensures log1 == log0 + [Answer(m, texts.deliveryError)] && links1 == links0
  {
  }

  // ---------------------------------------------------------------------
  // Reply resolution

  /**
   * `message_links.get(...)` followed by the falsiness test: the user a
   * replied-to message id leads back to, if any.
   */
  function Lookup(links: map<int, int>, replyTo: Option<int>): (r: Option<int>)
    ensures r.Some? <==> replyTo.Some? && replyTo.value in links && links[replyTo.value] != 0
    ensures r.Some? ==> r.value == links[replyTo.value]
  {
    if replyTo.Some? && replyTo.value in links && links[replyTo.value] != 0
    then Some(links[replyTo.value])
    else None
  }

  /** Recording an id and then looking it up gives the recorded user; the latest record wins. */
  lemma RecordThenLookup(links: map<int, int>, id: int, earlier: int, user: int)
    requires user != 0
    ensures Lookup(links[id := user], Some(id)) == Some(user)
    ensures Lookup(links[id := earlier][id := user], Some(id)) == Some(user)
  {
  }

  // ---------------------------------------------------------------------
  // Reply payload

  /** The caption of a relayed staff attachment: the prefix, then the staff caption if any. */
  function CaptionText(prefix: string, caption: Option<string>): (r: string)
    ensures |r| >= |prefix| && r[..|prefix|] == prefix
    ensures |r| == |prefix| <==> !Truthy(caption)
    ensures Truthy(caption) ==> r[|prefix|] == '\n'
  {
    if Truthy(caption) then prefix + "\n" + caption.value else prefix
  }

  /** The caption always opens with the prefix, and the staff caption is recovered after the line break. */
  lemma CaptionTextRoundTrip(prefix: string, caption: Option<string>)
    ensures |CaptionText(prefix, caption)| >= |prefix|
    ensures CaptionText(prefix, caption)[..|prefix|] == prefix
    ensures Truthy(caption) ==> CaptionText(prefix, caption)[|prefix|] == '\n'
    ensures Truthy(caption) ==> CaptionText(prefix, caption)[|prefix| + 1..] == caption.value
    ensures !Truthy(caption) ==> CaptionText(prefix, caption) == prefix
  {
    if Truthy(caption) {
      var c := CaptionText(prefix, caption);
      assert c == prefix + ("\n" + caption.value);
    }
  }

  /** The file of a given kind, if attached; for a photo, its last size. */
  function FileOf(m: Message, kind: MediaKind): Option<string> {
    match kind
    case Photo => if |m.photo| > 0 then Some(m.photo[|m.photo| - 1]) else None
    case Video => m.video
    case Document => m.document
    case Audio => m.audio
    case Voice => m.voice
    case Animation => m.animation
  }

  /** The order in which a staff reply's attachment kinds are tried. */
  const ReplyOrder: seq<MediaKind> := [Photo, Video, Document, Audio, Voice, Animation]

  /** The position of the first kind in `order` that `m` carries, or `|order|` if none. */
  function FirstPresentIndex(order: seq<MediaKind>, m: Message): (i: nat)
    ensures i <= |order|
    ensures forall j :: 0 <= j < i ==> FileOf(m, order[j]).None?
    ensures i < |order| ==> FileOf(m, order[i]).Some?
  {
    if order == [] then 0
    else if FileOf(m, order[0]).Some? then 0
    else 1 + FirstPresentIndex(order[1..], m)
  }

  /** `_send_admin_reply`'s if-chain: the attachment to send and its file. */
  function SelectReplyMedia(m: Message): (r: Option<(MediaKind, string)>)
    ensures r.Some? ==> FileOf(m, r.value.0) == Some(r.value.1)
    ensures r.None? ==> forall k :: FileOf(m, k).None?
  {
    if |m.photo| > 0 then Some((Photo, m.photo[|m.photo| - 1]))
    else if m.video.Some? then Some((Video, m.video.value))
    else if m.document.Some? then Some((Document, m.document.value))
    else if m.audio.Some? then Some((Audio, m.audio.value))
    else if m.voice.Some? then Some((Voice, m.voice.value))
    else if m.animation.Some? then Some((Animation, m.animation.value))
    else None
  }

  /** The chain picks exactly the first kind, in the reply order, that the message carries. */
  lemma SelectReplyMediaFollowsOrder(m: Message)
    ensures var i := FirstPresentIndex(ReplyOrder, m);
      SelectReplyMedia(m) == if i < |ReplyOrder| then Some((ReplyOrder[i], FileOf(m, ReplyOrder[i]).value)) else None
  {
    var o0 := ReplyOrder;
    var o1 := [Video, Document, Audio, Voice, Animation];
    var o2 := [Document, Audio, Voice, Animation];
    var o3 := [Audio, Voice, Animation];
    var o4 := [Voice, Animation];
    var o5 := [Animation];
    assert o0[1..] == o1 && o1[1..] == o2 && o2[1..] == o3 && o3[1..] == o4 && o4[1..] == o5 && o5[1..] == [];
    assert FirstPresentIndex(o0, m) == if FileOf(m, Photo).Some? then 0 else 1 + FirstPresentIndex(o1, m);
    assert FirstPresentIndex(o1, m) == if FileOf(m, Video).Some? then 0 else 1 + FirstPresentIndex(o2, m);
    assert FirstPresentIndex(o2, m) == if FileOf(m, Document).Some? then 0 else 1 + FirstPresentIndex(o3, m);
    assert FirstPresentIndex(o3, m) == if FileOf(m, Audio).Some? then 0 else 1 + FirstPresentIndex(o4, m);
    assert FirstPresentIndex(o4, m) == if FileOf(m, Voice).Some? then 0 else 1 + FirstPresentIndex(o5, m);
    assert FirstPresentIndex(o5, m) == if FileOf(m, Animation).Some? then 0 else 1;
  }

  /** Staff replies and user submissions recognise the same six attachment kinds. */
  lemma ReplyMediaMatchesClassifier(m: Message)
    ensures SelectReplyMedia(m).Some? <==> HasMedia(m)
  {
  }

  /** The requests `_send_admin_reply` makes, in order, if none is rejected. */
  function ReplyPlan(prefix: string, m: Message, userId: int): (plan: seq<Call>)
    ensures 1 <= |plan| <= 2
    ensures forall c :: c in plan ==> c.Destination() == userId
    ensures |plan| == 2 <==> !Truthy(m.text) && !HasMedia(m)
  {
    if Truthy(m.text) then [SendMessage(userId, None, prefix + "\n" + m.text.value)]
    else match SelectReplyMedia(m)
      case Some((kind, fileId)) => [SendMedia(userId, kind, fileId, CaptionText(prefix, m.caption))]
      case None => [SendMessage(userId, None, prefix), CopyMessage(userId, None, m.chatId, m.messageId)]
  }

  /** The requests actually made when `plan` runs, and whether all were delivered. */
  datatype Run = Run(attempted: seq<Call>, ok: bool)

  /**
   * Awaiting each request of `plan` in turn, the `k`-th taking outcome
   * `n + k`: the first rejection ends the run.
   */
  function RunPlan(plan: seq<Call>, script: seq<Option<int>>, n: nat): (r: Run)
    ensures r.attempted <= plan
    ensures r.ok ==> r.attempted == plan
    ensures r.ok <==> forall k :: n <= k < n + |plan| ==> OutcomeAt(script, k).Some?
    ensures !r.ok ==> |r.attempted| > 0 && OutcomeAt(script, n + |r.attempted| - 1).None?
    ensures forall k :: n <= k < n + |r.attempted| - (if r.ok then 0 else 1) ==> OutcomeAt(script, k).Some?
    decreases |plan|
  {
    if plan == [] then Run([], true)
    else if OutcomeAt(script, n).None? then Run([plan[0]], false)
    else
      var rest := RunPlan(plan[1..], script, n + 1);
      Run([plan[0]] + rest.attempted, rest.ok)
  }

  /**
   * `admin_reply`: a reply whose target leads back to a user is forwarded
   * to that user; a rejected forward earns the staff sender one failure
   * notice; anything else is dropped silently.
   */
  predicate AdminReplyHandled(
    prefix: string, m: Message, links: map<int, int>,
    log0: seq<Call>, log1: seq<Call>, script: seq<Option<int>>, st: Status)
    ensures AdminReplyHandled(prefix, m, links, log0, log1, script, st) ==>
      && |log0| <= |log1| <= |log0| + 3 && log1[..|log0|] == log0
      && (Lookup(links, m.replyTo).None? ==> log1 == log0)
  {
    match Lookup(links, m.replyTo)
    case None => log1 == log0 && st == Done
    case Some(user) =>
      var run := RunPlan(ReplyPlan(prefix, m, user), script, |log0|);
      if run.ok then log1 == log0 + run.attempted && st == Done
      else
        log1 == log0 + run.attempted + [ReplyMessage(m.chatId, m.messageId, ReplyFailureNotice)]
        && st == (if OutcomeAt(script, |log0| + |run.attempted|).Some? then Done else Raised)
  }

  /** A reply that is not a reply, or whose target has no link, sends nothing. */
  lemma UnresolvedReplyIsSilent(
    prefix: string, m: Message, links: map<int, int>,
    log0: seq<Call>, log1: seq<Call>, script: seq<Option<int>>, st: Status)
    requires AdminReplyHandled(prefix, m, links, log0, log1, script, st)
    requires m.replyTo.None? || m.replyTo.value !in links || links[m.replyTo.value] == 0
    ensures log1 == log0 && st == Done
  {
  }

  /**
   * A resolved reply sends only to the resolved user, and on a rejection
   * adds exactly one failure notice, addressed to the staff message.
   */
  lemma ResolvedReplyGoesToUser(
    prefix: string, m: Message, links: map<int, int>,
    log0: seq<Call>, log1: seq<Call>, script: seq<Option<int>>, st: Status, user: int)
    requires AdminReplyHandled(prefix, m, links, log0, log1, script, st)
    requires Lookup(links, m.replyTo) == Some(user)
    ensures var run := RunPlan(ReplyPlan(prefix, m, user), script, |log0|);
      && log1[..|log0|] == log0
      && (forall c :: c in log1[|log0|..|log0| + |run.attempted|] ==> c.Destination() == user)
      && (run.ok ==> |log1| == |log0| + |run.attempted|)
      && (!run.ok ==> |log1| == |log0| + |run.attempted| + 1
                      && log1[|log1| - 1] == ReplyMessage(m.chatId, m.messageId, ReplyFailureNotice))
  {
    var plan := ReplyPlan(prefix, m, user);
    var run := RunPlan(plan, script, |log0|);
    assert log1[|log0|..|log0| + |run.attempted|] == run.attempted;
    forall c | c in run.attempted
      ensures c.Destination() == user
    {
      assert c in plan;
    }
  }

  /**
   * Without text, a reply carries the first attachment in the reply order
   * with the prefixed caption; with no attachment either, it is the prefix
   * followed by a copy of the staff message.
   */
  lemma ReplyPlanPayload(prefix: string, m: Message, user: int)
    requires !Truthy(m.text)
    ensures var i := FirstPresentIndex(ReplyOrder, m);
      && (i < |ReplyOrder| ==>
            ReplyPlan(prefix, m, user)
            == [SendMedia(user, ReplyOrder[i], FileOf(m, ReplyOrder[i]).value, CaptionText(prefix, m.caption))])
      && (i == |ReplyOrder| ==>
            ReplyPlan(prefix, m, user)
            == [SendMessage(user, None, prefix), CopyMessage(user, None, m.chatId, m.messageId)])
  {
    SelectReplyMediaFollowsOrder(m);
  }

  /** A text reply is delivered as the prefix, a line break and the staff text. */
  lemma TextReplyIsPrefixed(prefix: string, m: Message, user: int)
    requires Truthy(m.text)
    ensures ReplyPlan(prefix, m, user) == [SendMessage(user, None, prefix + "\n" + m.text.value)]
  {
  }

  // ---------------------------------------------------------------------
  // The relay state

  /**
   * The process-wide relay: its configuration and `message_links`, the map
   * from the id of every message relayed into the staff group to the user
   * it came from.
   */
  class Relay {
    const cfg: Config.Settings
    const texts: Config.Texts
    var links: map<int, int>

    /** Every link leads to a real user id. */
    ghost predicate Valid()
      reads this
    {
      forall id :: id in links ==> links[id] != 0
    }

    /** Under the invariant, every relayed id resolves to the user it was recorded for. */
    lemma ValidLinksResolve()
      requires Valid()
      ensures forall id :: id in links ==> Lookup(links, Some(id)) == Some(links[id])
    {
    }

    constructor (cfg: Config.Settings, texts: Config.Texts)
      ensures Valid()
      ensures this.cfg == cfg && this.texts == texts && links == map[]
    {
      this.cfg := cfg;
      this.texts := texts;
      links := map[];
    }

    /** `handle_user_message`. */
    method HandleUserMessage(m: Message, t: Transport) returns (st: Status)
      requires Valid()
      modifies this, t
      ensures Valid()
      ensures UserMessageHandled(cfg, texts, m, old(links), links, old(t.log), t.log, t.script, st)
    {
      if Truthy(m.text) {
        var stripped := Strip(m.text.value);
        if stripped == [] || stripped[0] == '/' {
          return Done;
        }
        if IsButtonText(texts, stripped) {
          return Done;
        }
      }
      var userId := SenderId(m);
      if userId == 0 {
        return Done;
      }
      var userInfo := FormatUser(m.from);
      if HasMedia(m) {
        st := ProcessMaterial(m, userId, userInfo, t);
      } else if Truthy(m.text) {
        st := ProcessQuestion(m, userId, userInfo, t);
      } else {
        var r := t.Send(Answer(m, texts.unsupportedContent));
        st := if r.Some? then Done else Raised;
      }
    }

    /** `_notify_delivery_error`: tell the user delivery failed; a rejection here is swallowed. */
    method NotifyDeliveryError(m: Message, t: Transport)
      modifies t
      ensures t.log == old(t.log) + [Answer(m, texts.deliveryError)]
    {
      var _ := t.Send(Answer(m, texts.deliveryError));
    }

    /** `_process_material_message`. */
    method ProcessMaterial(m: Message, userId: int, userInfo: string, t: Transport) returns (st: Status)
      requires Valid() && userId != 0
      modifies this, t
      ensures Valid()
      ensures MaterialRelayed(cfg, texts, m, userId, userInfo, old(links), links, old(t.log), t.log, t.script, st)
    {
      var topic := cfg.topicMaterial;
      if topic == 0 {
        NotifyDeliveryError(m, t);
        return Done;
      }
      var copied := t.Send(CopyMessage(cfg.adminChatId, Some(topic), m.chatId, m.messageId));
      if copied.None? {
        NotifyDeliveryError(m, t);
        return Done;
      }
      links := links[copied.value := userId];
      var summary := t.Send(SendMessage(cfg.adminChatId, Some(topic), MaterialHeader(userInfo)));
      if summary.None? {
        NotifyDeliveryError(m, t);
        return Done;
      }
      links := links[summary.value := userId];
      var ack := t.Send(Answer(m, texts.materialSent));
      st := if ack.Some? then Done else Raised;
    }

    /** `_process_question_message`. */
    method ProcessQuestion(m: Message, userId: int, userInfo: string, t: Transport) returns (st: Status)
      requires Valid() && userId != 0
      modifies this, t
      ensures Valid()
      ensures QuestionRelayed(cfg, texts, m, userId, userInfo, old(links), links, old(t.log), t.log, t.script, st)
    {
      var topic := cfg.topicQuestion;
      if topic == 0 {
        NotifyDeliveryError(m, t);
        return Done;
      }
      var text := if m.text.Some? then m.text.value else "";
      var posted := t.Send(SendMessage(cfg.adminChatId, Some(topic), QuestionPost(userInfo, text)));
      if posted.None? {
        NotifyDeliveryError(m, t);
        return Done;
      }
      links := links[posted.value := userId];
      var ack := t.Send(Answer(m, texts.questionSent));
      st := if ack.Some? then Done else Raised;
    }

    /** `admin_reply`: reads the links and never changes them. */
    method AdminReply(m: Message, t: Transport) returns (st: Status)
      modifies t
      ensures AdminReplyHandled(texts.adminReplyPrefix, m, links, old(t.log), t.log, t.script, st)
    {
      var user := Lookup(links, m.replyTo);
      if user.None? {
        return Done;
      }
      var ok := SendAdminReply(m, user.value, t);
      if !ok {
        var r := t.Send(ReplyMessage(m.chatId, m.messageId, ReplyFailureNotice));
        st := if r.Some? then Done else Raised;
      } else {
        st := Done;
      }
    }

    /** `_send_admin_reply`: forward the staff message's content to `userId`. */
    method SendAdminReply(m: Message, userId: int, t: Transport) returns (ok: bool)
      modifies t
      ensures t.log == old(t.log) + RunPlan(ReplyPlan(texts.adminReplyPrefix, m, userId), t.script, old(|t.log|)).attempted
      ensures ok == RunPlan(ReplyPlan(texts.adminReplyPrefix, m, userId), t.script, old(|t.log|)).ok
    {
      var prefix := texts.adminReplyPrefix;
      if Truthy(m.text) {
        var r := t.Send(SendMessage(userId, None, prefix + "\n" + m.text.value));
        return r.Some?;
      }
      var captionText := CaptionText(prefix, m.caption);
      match SelectReplyMedia(m)
      case Some((kind, fileId)) =>
        var r := t.Send(SendMedia(userId, kind, fileId, captionText));
        ok := r.Some?;
      case None =>
        var r := t.Send(SendMessage(userId, None, prefix));
        if r.None? {
          return false;
        }
        r := t.Send(CopyMessage(userId, None, m.chatId, m.messageId));
        ok := r.Some?;
    }
  }

  // ---------------------------------------------------------------------
  // Start-up

  /** The placeholder token `main` compares against. */
  const GuardPlaceholder: string := "ТВОЙ_ТОКЕН"

  /** `main`'s token check exactly as written: refuse an empty token and the placeholder. */
  predicate TokenAcceptedAsWritten(token: string)
    ensures !TokenAcceptedAsWritten(token) <==> token in {"", GuardPlaceholder}
  {
    !(token == "" || token == GuardPlaceholder)
  }

  /**
   * As written, the configuration's default token is not the placeholder
   * `main` compares against, so with BOT_TOKEN unset the check lets the
   * default through.
   */
  lemma DefaultTokenPassesGuardAsWritten()
    ensures Config.LoadSettings(map[]).Ok?
    ensures TokenAcceptedAsWritten(Config.LoadSettings(map[]).value.botToken)
  {
    Config.LoadSettingsDefaults();
    assert Config.DefaultBotToken[0] != GuardPlaceholder[0];
  }

  /** The token check as intended: also refuse the configuration's own default. */
  predicate TokenAccepted(token: string)
    ensures TokenAccepted(token) ==> TokenAcceptedAsWritten(token)
    ensures token == Config.DefaultBotToken ==> !TokenAccepted(token)
  {
    token != "" && token != GuardPlaceholder && token != Config.DefaultBotToken
  }

  datatype StartupError = BadSetting(cause: Config.EnvError) | TokenNotConfigured

  /** Loading the settings, then `main`'s token check (with the corrected guard). */
  function Startup(env: Config.Env): (r: Result<Config.Settings, StartupError>)
    ensures r.Ok? ==> Config.LoadSettings(env) == Ok(r.value) && TokenAccepted(r.value.botToken)
    ensures r == Err(TokenNotConfigured) ==> Config.LoadSettings(env).Ok?
    ensures Config.LoadSettings(env).Ok? && TokenAccepted(Config.LoadSettings(env).value.botToken) ==> r.Ok?
    ensures Config.LoadSettings(env).Err? ==> r == Err(BadSetting(Config.LoadSettings(env).error))
    ensures Config.LoadSettings(env).Ok? && !TokenAccepted(Config.LoadSettings(env).value.botToken) ==>
      r == Err(TokenNotConfigured)
  {
    match Config.LoadSettings(env)
    case Err(e) => Err(BadSetting(e))
    case Ok(s) => if TokenAccepted(s.botToken) then Ok(s) else Err(TokenNotConfigured)
  }

  /** Without BOT_TOKEN in the environment the relay never starts. */
  lemma StartupNeedsToken(env: Config.Env)
    requires "BOT_TOKEN" !in env || env["BOT_TOKEN"] == ""
    ensures Startup(env).Err?
  {
  }
}
