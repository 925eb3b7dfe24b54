/** The pure fragments of src/services/aiService.ts: the history filter and
    empty-history fallback of `generateText`, the URI and file-name
    normalisation of `transcribeAudio`, and the once-only audio-mode flag. */
module AiService {
  import opened Wrappers
  import opened JsText
  import PhoneMachine

  type Message = PhoneMachine.Message

  const NoInputReply: string := "I didn't catch that. Could you say that again?"

  /** The filter's test `msg.content && msg.content.trim() !== ''`, stated as
      "some character is not white space" (`KeptIffTrimmed` shows the two agree). */
  predicate Kept(m: Message) {
    !AllWhitespace(m.content)
  }

  lemma KeptIffTrimmed(m: Message)
    ensures Kept(m) <==> m.content != [] && Trim(m.content) != []
  {
    TrimEmptyIff(m.content);
  }

  /** `conversationHistory.filter(msg => msg.content && msg.content.trim() !== '')`. */
  function FilterHistory(history: seq<Message>): (r: seq<Message>)
    ensures |r| <= |history|
    ensures forall i :: 0 <= i < |r| ==> Kept(r[i])
  {
    if history == [] then []
    else if Kept(history[0]) then [history[0]] + FilterHistory(history[1..])
    else FilterHistory(history[1..])
  }

  /** The filter distributes over concatenation, so it keeps the original order. */
  lemma {:induction false} FilterAppend(a: seq<Message>, b: seq<Message>)
    ensures FilterHistory(a + b) == FilterHistory(a) + FilterHistory(b)
  {
    if a == [] {
      assert a + b == b;
    } else {
      assert (a + b)[0] == a[0];
      assert (a + b)[1..] == a[1..] + b;
      FilterAppend(a[1..], b);
    }
  }

  /** A message survives the filter exactly when its trimmed content is non-empty. */
  lemma {:induction false} FilterMembers(history: seq<Message>, m: Message)
    ensures m in FilterHistory(history) <==> m in history && Kept(m)
  {
    if history != [] {
      FilterMembers(history[1..], m);
      assert history == [history[0]] + history[1..];
    }
  }

  /** The filtered history is empty exactly when every message is blank. */
  lemma {:induction false} FilterEmptyIff(history: seq<Message>)
    ensures FilterHistory(history) == [] <==> forall i :: 0 <= i < |history| ==> !Kept(history[i])
  {
    if history != [] {
      FilterEmptyIff(history[1..]);
      forall i | 1 <= i < |history| ensures history[i] == history[1..][i - 1] { }
    }
  }

  /** What `generateText` does before any network traffic: reply with the
      fixed fallback without a request, or send the filtered history. */
  datatype Generation = Fallback(reply: string) | Request(messages: seq<Message>)

  function GenerateText(history: seq<Message>): (g: Generation)
    ensures g.Fallback? <==> forall i :: 0 <= i < |history| ==> AllWhitespace(history[i].content)
    ensures g.Fallback? ==> g.reply == NoInputReply
    ensures g.Request? ==> g.messages == FilterHistory(history) && g.messages != []
  {
    FilterEmptyIff(history);
    var filtered := FilterHistory(history);
    if filtered == [] then Fallback(NoInputReply) else Request(filtered)
  }

  /** Whenever the filtered history is a given non-empty list, that list is sent. */
  lemma GenerateRequest(history: seq<Message>, messages: seq<Message>)
    requires FilterHistory(history) == messages && messages != []
    ensures GenerateText(history) == Request(messages)
  {
  }

  /** A kept last message is the last message of the filtered history. */
  lemma FilterKeepsLast(prefix: seq<Message>, u: Message)
    requires Kept(u)
    ensures FilterHistory(prefix + [u]) == FilterHistory(prefix) + [u]
  {
    FilterAppend(prefix, [u]);
    assert FilterHistory([u]) == [u];
  }

  /** In a reachable `processing` state whose user turn is not blank, the
      phone machine's request is sent, and it ends with the user's turn twice. */
  lemma PhoneRequestIsSent(c: PhoneMachine.Config)
    requires PhoneMachine.Inv(c) && c.state == PhoneMachine.Active(PhoneMachine.Processing)
    requires |c.ctx.conversation| > 0 && Kept(c.ctx.conversation[|c.ctx.conversation| - 1])
    ensures var conv := c.ctx.conversation;
            var g := GenerateText(PhoneMachine.RequestHistory(c.ctx));
            && g.Request?
            && g.messages == FilterHistory(conv[..|conv| - 1]) + [conv[|conv| - 1], conv[|conv| - 1]]
  {
    var conv := c.ctx.conversation;
    var u := conv[|conv| - 1];
    var prefix := conv[..|conv| - 1];
    assert prefix + [u] == conv;
    FilterKeepsLast(prefix, u);
    FilterKeepsLast(conv, u);
    PhoneMachine.RequestRepeatsUserTurn(c);
    GenerateRequest(conv + [u], FilterHistory(prefix) + [u, u]);
  }

  /** The other half: in a reachable `processing` state whose user turn is
      blank, both copies of that turn are dropped. The earlier kept turns are
      sent, and when there are none the fixed reply comes back without a
      request (as after ACCEPT and `USER_SPEAK(" ")`). */
  lemma PhoneBlankTurn(c: PhoneMachine.Config)
    requires PhoneMachine.Inv(c) && c.state == PhoneMachine.Active(PhoneMachine.Processing)
    requires |c.ctx.conversation| > 0 && !Kept(c.ctx.conversation[|c.ctx.conversation| - 1])
    ensures var conv := c.ctx.conversation;
            var earlier := FilterHistory(conv[..|conv| - 1]);
            GenerateText(PhoneMachine.RequestHistory(c.ctx)) ==
              if earlier == [] then Fallback(NoInputReply) else Request(earlier)
  {
    var conv := c.ctx.conversation;
    var u := conv[|conv| - 1];
    var prefix := conv[..|conv| - 1];
    assert prefix + [u] == conv;
    assert FilterHistory([u]) == [];
    FilterAppend(prefix, [u]);
    FilterAppend(conv, [u]);
    PhoneMachine.RequestRepeatsUserTurn(c);
    FilterEmptyIff(conv + [u]);
  }

  // ---------------------------------------------------------------------
  // transcribeAudio: the file URI and the upload's file name

  const FilePrefix: string := "file://"
  const DefaultFilename: string := "recording.m4a"

  /** `audioUri.startsWith('file://') ? audioUri : 'file://' + audioUri`. */
  function NormalizeUri(audioUri: string): (uri: string)
    ensures StartsWith(uri, FilePrefix)
    ensures StartsWith(audioUri, FilePrefix) ==> uri == audioUri
    ensures !StartsWith(audioUri, FilePrefix) ==> uri == FilePrefix + audioUri
  {
    if StartsWith(audioUri, FilePrefix) then audioUri else FilePrefix + audioUri
  }

  lemma NormalizeIdempotent(audioUri: string)
    ensures NormalizeUri(NormalizeUri(audioUri)) == NormalizeUri(audioUri)
  {
  }

  /** `s.split('/').pop()`: the text after the last '/', or all of `s` when it has none. */
  function LastSegment(s: string): (r: string)
    ensures |r| <= |s| && r == s[|s| - |r|..]
    ensures '/' !in r
  {
    if s == [] || s[|s| - 1] == '/' then []
    else
      var r := LastSegment(s[..|s| - 1]);
      assert s[..|s| - 1][|s| - 1 - |r|..] == s[|s| - 1 - |r|..|s| - 1];
      r + [s[|s| - 1]]
  }

  /** The segment is everything after the last '/': when it is not all of
      `s`, the character just before it is the separator. */
  lemma {:induction false} LastSegmentAfterSlash(s: string)
    ensures var r := LastSegment(s); |r| < |s| ==> s[|s| - |r| - 1] == '/'
  {
    if s != [] && s[|s| - 1] != '/' {
      LastSegmentAfterSlash(s[..|s| - 1]);
    }
  }

  /** `uri.split('/').pop() || 'recording.m4a'`. */
  function Filename(uri: string): (name: string)
    ensures LastSegment(uri) == [] ==> name == DefaultFilename
    ensures LastSegment(uri) != [] ==> name == LastSegment(uri)
  {
    var seg := LastSegment(uri);
    if seg == [] then DefaultFilename else seg
  }

  lemma DefaultFilenamePlain()
    ensures DefaultFilename != [] && '/' !in DefaultFilename
  {
    assert DefaultFilename[0] == 'r';
    forall i | 0 <= i < |DefaultFilename| ensures DefaultFilename[i] != '/' { }
  }

  /** The upload name is never empty and never contains a '/'. */
  lemma FilenameIsPlain(uri: string)
    ensures Filename(uri) != [] && '/' !in Filename(uri)
  {
    if LastSegment(uri) == [] {
      DefaultFilenamePlain();
    }
  }

  datatype Upload = Upload(uri: string, name: string)

  function TranscribeUpload(audioUri: string): (u: Upload)
    ensures StartsWith(u.uri, FilePrefix)
    ensures u.name == Filename(u.uri)
  {
    var uri := NormalizeUri(audioUri);
    Upload(uri, Filename(uri))
  }

  /** A URI ending in '/' uploads under the default name. */
  lemma TrailingSlashUsesDefault(audioUri: string)
    requires audioUri != [] && audioUri[|audioUri| - 1] == '/'
    ensures TranscribeUpload(audioUri).name == DefaultFilename
  {
    var uri := NormalizeUri(audioUri);
    assert uri[|uri| - 1] == '/';
  }

  /** `data.text || ''`: a missing or empty transcription is the empty string. */
  function TranscriptText(text: Option<string>): (r: string)
    ensures text.None? ==> r == []
    ensures text.Some? ==> r == text.value
  {
    match text
    case None => []
    case Some(t) => if t == [] then [] else t
  }

  // ---------------------------------------------------------------------
  // initAudioMode: the module-level `audioModeInitialized` flag

  /** The module-level audio state: the flag, and how many times
      `initAudioMode` has asked the platform to set the audio mode. */
  class AudioSession {
    var audioModeInitialized: bool
    var modeRequests: nat

    constructor ()
      ensures !audioModeInitialized && modeRequests == 0
    {
      audioModeInitialized := false;
      modeRequests := 0;
    }

    /** `initAudioMode`; `succeeds` is whether the platform call resolved. When
        it rejects, the flag stays false and the next call tries again. */
    method InitAudioMode(succeeds: bool)
      modifies this
      ensures audioModeInitialized == (old(audioModeInitialized) || succeeds)
      ensures modeRequests == old(modeRequests) + (if old(audioModeInitialized) then 0 else 1)
    {
      if !audioModeInitialized {
        modeRequests := modeRequests + 1;
        if succeeds {
          audioModeInitialized := true;
        }
      }
    }
  }

  /** `playAudio` and `playRingtone` both begin with `initAudioMode`. With a
      platform that never fails, a sound followed by the ringtone asks for the
      audio mode once, and not at all when the flag was already set. */
  method PlayAudioThenRingtone(session: AudioSession)
    modifies session
    ensures session.audioModeInitialized
    ensures session.modeRequests == old(session.modeRequests) + (if old(session.audioModeInitialized) then 0 else 1)
  {
    session.InitAudioMode(true);
    session.InitAudioMode(true);
  }
}
