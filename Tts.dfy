/** The speech-output hook: a text buffer filled token by token while a reply
    streams in and spoken in one utterance when the reply is complete, a
    markdown sanitiser applied before speaking, the choice of a French voice,
    and a silent "unlock" utterance that browsers demand inside a user gesture.

    The speech synthesizer is not modelled; what the hook asks of it is
    recorded, in order, in a log of `SynthCall`s, and the utterance callbacks
    (`onstart`, `onend`, `onerror`) are events delivered to the hook. */
module Tts {
  import opened Wrappers
  import opened Text

  /** The language the hook is created with when the caller gives none. */
  const DefaultLang: string := "fr-FR"

  datatype Voice = Voice(name: string, lang: string)

  /** What an utterance is created with: its text, its language (`None` when
      the hook leaves it at the browser's default), whether its volume is 0,
      and the voice chosen for it. Rate and pitch are always 1. */
  datatype Utterance = Utterance(text: string, lang: Option<string>, muted: bool, voice: Option<Voice>)

  /** A call made on the speech synthesizer. */
  datatype SynthCall = Cancel | Speak(utterance: Utterance)

  /** The hook's state: the pending text, the speaking flag, whether the
      unlock utterance has been played, and every synthesizer call so far. */
  datatype OutputState = OutputState(buffer: string, isSpeaking: bool, unlocked: bool, synth: seq<SynthCall>)

  // ---------------------------------------------------------------------
  // The markdown sanitiser
  // ---------------------------------------------------------------------

  /** `d` occurs in `t` at position `j`. */
  predicate OccursAt(t: string, d: string, j: nat) {
    j + |d| <= |t| && t[j..j + |d|] == d
  }

  /** Where a non-greedy `(.*?)d` first closes in `t`: the least `k` at which
      `d` occurs with no line terminator before it (`.` does not match one). */
  function Closing(t: string, d: string): (r: Option<nat>)
    requires |d| > 0
    ensures r.Some? ==> OccursAt(t, d, r.value) && NoLineTerminator(t[..r.value])
    ensures r.Some? ==> forall j: nat :: j < r.value ==> !OccursAt(t, d, j)
    ensures r.None? ==> forall j: nat :: OccursAt(t, d, j) ==> !NoLineTerminator(t[..j])
    decreases |t|
  {
    if |t| < |d| then None
    else if t[..|d|] == d then Some(0)
    else if IsLineTerminator(t[0]) then None
    else
      var rest := Closing(t[1..], d);
      ClosingStep(t, d, rest);
      match rest
      case None => None
      case Some(k) => Some(k + 1)
  }

  /** One step of the scan in `Closing`: an occurrence past the first
      character is an occurrence in the rest, and the prefix before it is the
      first character followed by the rest's prefix. */
  lemma ClosingStep(t: string, d: string, rest: Option<nat>)
    requires |d| > 0 && |t| >= |d| && t[..|d|] != d && !IsLineTerminator(t[0])
    requires rest.Some? ==> OccursAt(t[1..], d, rest.value) && NoLineTerminator(t[1..][..rest.value])
    requires rest.Some? ==> forall j: nat :: j < rest.value ==> !OccursAt(t[1..], d, j)
    requires rest.None? ==> forall j: nat :: OccursAt(t[1..], d, j) ==> !NoLineTerminator(t[1..][..j])
    ensures rest.Some? ==> OccursAt(t, d, rest.value + 1) && NoLineTerminator(t[..rest.value + 1])
    ensures rest.Some? ==> forall j: nat :: j < rest.value + 1 ==> !OccursAt(t, d, j)
    ensures rest.None? ==> forall j: nat :: OccursAt(t, d, j) ==> !NoLineTerminator(t[..j])
  {
    var u := t[1..];
    forall j: nat | 1 <= j <= |t|
      ensures t[..j] == [t[0]] + u[..j - 1]
      ensures OccursAt(t, d, j) == OccursAt(u, d, j - 1)
    {
      if j + |d| <= |t| {
        var here := t[j..j + |d|];
        var there := u[j - 1..j - 1 + |d|];
        forall i | 0 <= i < |d| ensures here[i] == there[i] {
          assert here[i] == t[j + i] && there[i] == u[j - 1 + i];
        }
        assert here == there;
      }
    }
    if rest.Some? {
      var k := rest.value;
      assert t[..k + 1] == [t[0]] + u[..k];
      forall j: nat | j < k + 1
        ensures !OccursAt(t, d, j)
      {
        if j > 0 {
          assert OccursAt(t, d, j) == OccursAt(u, d, j - 1);
        }
      }
    } else {
      forall j: nat | OccursAt(t, d, j)
        ensures !NoLineTerminator(t[..j])
      {
        assert j != 0;
        assert OccursAt(u, d, j - 1);
        assert !NoLineTerminator(u[..j - 1]);
        assert t[..j] == [t[0]] + u[..j - 1];
      }
    }
  }

  /** `s.replace(/d(.*?)d/g, '$1')`: scanning left to right, every `d … d`
      pair on one line is replaced by what it encloses. */
  function StripDelimited(s: string, d: string): (r: string)
    requires |d| > 0
    ensures |r| <= |s|
    ensures d[0] !in s ==> r == s
    decreases |s|
  {
    if s == [] then []
    else if StartsWith(s, d) && Closing(s[|d|..], d).Some? then
      var k := Closing(s[|d|..], d).value;
      s[|d|..|d| + k] + StripDelimited(s[|d| + k + |d|..], d)
    else
      assert d[0] !in s ==> d[0] !in s[1..];
      [s[0]] + StripDelimited(s[1..], d)
  }

  /** The length of the run of `#` that starts `s`, counting at most six. */
  function HashRun(s: string): (n: nat)
    ensures n <= 6 && n <= |s|
    ensures forall i :: 0 <= i < n ==> s[i] == '#'
    ensures n < 6 && n < |s| ==> s[n] != '#'
  {
    if s == [] || s[0] != '#' then 0
    else
      var m := HashRun(s[1..]);
      if m == 6 then 6 else m + 1
  }

  /** `s.replace(/#{1,6}\s/g, '')`: every run of one to six `#` followed by a
      whitespace character is deleted together with that character. */
  function StripHeadings(s: string): (r: string)
    ensures |r| <= |s|
    ensures '#' !in s ==> r == s
  {
    if s == [] then []
    else
      var n := HashRun(s);
      if 1 <= n < |s| && IsSpace(s[n]) then StripHeadings(s[n + 1..])
      else
        assert '#' !in s ==> '#' !in s[1..];
        [s[0]] + StripHeadings(s[1..])
  }

  /** A heading mark, one to six `#` followed by a whitespace character, is
      deleted with that character. */
  lemma HeadingMarkDropped(h: string, c: char, x: string)
    requires 1 <= |h| <= 6 && forall i :: 0 <= i < |h| ==> h[i] == '#'
    requires IsSpace(c)
    ensures StripHeadings(h + [c] + x) == StripHeadings(x)
  {
    var s := h + [c] + x;
    var n := HashRun(s);
    assert s[|h|] == c;
    assert n == |h|;
    assert s[n + 1..] == x;
  }

  /** One replacement the sanitiser makes: unwrapping a delimiter pair, or
      deleting heading marks. */
  datatype Rewrite = Unwrap(delimiter: Delimiter) | DropHeadings

  /** A delimiter is never empty. */
  type Delimiter = d: string | |d| > 0 witness "*"

  /** The sanitiser's replacements in the order it applies them: bold, then
      italics, then inline code, then headings. */
  const Rewrites: seq<Rewrite> := [Unwrap("**"), Unwrap("*"), Unwrap("`"), DropHeadings]

  function Rewritten(s: string, w: Rewrite): (r: string)
    ensures |r| <= |s|
  {
    match w
    case Unwrap(d) => StripDelimited(s, d)
    case DropHeadings => StripHeadings(s)
  }

  /** The replacements applied one after the other. */
  function RewrittenAll(s: string, ws: seq<Rewrite>): (r: string)
    ensures |r| <= |s|
    decreases |ws|
  {
    if ws == [] then s else RewrittenAll(Rewritten(s, ws[0]), ws[1..])
  }

  /** The sanitiser: the replacements, then the trim. */
  function Clean(text: string): (r: string)
    ensures |r| <= |text|
    ensures r == [] || (!IsSpace(r[0]) && !IsSpace(r[|r| - 1]))
  {
    Trim(RewrittenAll(text, Rewrites))
  }

  /** A replacement leaves `s` alone: `s` holds neither the delimiter's first
      character nor a `#`. */
  predicate Untouched(s: string, w: Rewrite) {
    match w
    case Unwrap(d) => d[0] !in s
    case DropHeadings => '#' !in s
  }

  /** Every replacement of `ws` leaves `s` alone. */
  predicate AllUntouched(s: string, ws: seq<Rewrite>) {
    ws == [] || (Untouched(s, ws[0]) && AllUntouched(s, ws[1..]))
  }

  lemma {:induction false} RewrittenAllUntouched(s: string, ws: seq<Rewrite>)
    requires AllUntouched(s, ws)
    ensures RewrittenAll(s, ws) == s
  {
    if ws != [] {
      RewrittenAllUntouched(s, ws[1..]);
      assert Rewritten(s, ws[0]) == s;
    }
  }

  /** Text without `*`, `` ` `` or `#` is left alone by the replacements
      after the bold one. */
  lemma PlainTail(text: string)
    requires '*' !in text && '`' !in text && '#' !in text
    ensures AllUntouched(text, [Unwrap("*"), Unwrap("`"), DropHeadings])
  {
    var italic := "*";
    var code := "`";
    assert italic[0] == '*' && code[0] == '`';
    var ws := [Unwrap(italic), Unwrap(code), DropHeadings];
    assert ws[1..][1..][1..] == [];
    assert AllUntouched(text, ws[1..][1..]);
    assert ws[1..][1..] == [DropHeadings];
    assert AllUntouched(text, ws[1..]);
  }

  /** Text without `*`, `` ` `` or `#` is only trimmed. */
  lemma CleanPlain(text: string)
    requires '*' !in text && '`' !in text && '#' !in text
    ensures Clean(text) == Trim(text)
  {
    var bold := "**";
    var italic := "*";
    var code := "`";
    assert bold[0] == '*' && italic[0] == '*' && code[0] == '`';
    assert Rewrites == [Unwrap(bold), Unwrap(italic), Unwrap(code), DropHeadings];
    assert AllUntouched(text, Rewrites) by {
      PlainTail(text);
      assert Untouched(text, Unwrap(bold));
      assert Rewrites[1..] == [Unwrap(italic), Unwrap(code), DropHeadings];
    }
    RewrittenAllUntouched(text, Rewrites);
  }

  /** A delimiter pair on one line around text free of the delimiter's first
      character is replaced by the text. */
  lemma StripWrapped(x: string, d: string)
    requires |d| > 0 && d[0] !in x && NoLineTerminator(x)
    ensures StripDelimited(d + x + d, d) == x
  {
    var s := d + x + d;
    assert s[..|d|] == d;
    var t := s[|d|..];
    assert t == x + d;
    assert t[|x|..|x| + |d|] == d;
    assert t[..|x|] == x;
    var c := Closing(t, d);
    assert c.Some?;
    var k := c.value;
    assert !OccursAt(t, d, |x|) ==> false;
    assert k <= |x|;
    assert s[|d|..|d| + k] == x;
    assert s[|d| + k + |d|..] == [];
  }

  /** Bold text free of markdown characters is spoken as the text itself. */
  lemma CleanUnwrapsBold(x: string)
    requires '*' !in x && '`' !in x && '#' !in x && NoLineTerminator(x)
    ensures Clean("**" + x + "**") == Trim(x)
  {
    var bold := "**";
    var italic := "*";
    var code := "`";
    assert bold[0] == '*' && italic[0] == '*' && code[0] == '`';
    assert Rewrites == [Unwrap(bold), Unwrap(italic), Unwrap(code), DropHeadings];
    StripWrapped(x, bold);
    var rest := Rewrites[1..];
    assert rest == [Unwrap(italic), Unwrap(code), DropHeadings];
    PlainTail(x);
    RewrittenAllUntouched(x, rest);
    assert RewrittenAll(bold + x + bold, Rewrites) == RewrittenAll(x, rest);
  }

  /** A blank text cleans to nothing, so the blank check before cleaning
      never changes the outcome. */
  lemma CleanBlank(text: string)
    requires IsBlank(text)
    ensures Clean(text) == []
  {
    assert !IsSpace('*') && !IsSpace('`') && !IsSpace('#');
    assert '*' !in text && '`' !in text && '#' !in text;
    CleanPlain(text);
  }

  // ---------------------------------------------------------------------
  // Voice choice
  // ---------------------------------------------------------------------

  /** `voices.findIndex(v => v.lang === lang)`, as an option. */
  function FindLang(voices: seq<Voice>, lang: string): (r: Option<nat>)
    ensures r.Some? ==> r.value < |voices| && voices[r.value].lang == lang
    ensures r.Some? ==> forall j :: 0 <= j < r.value ==> voices[j].lang != lang
    ensures r.None? ==> forall j :: 0 <= j < |voices| ==> voices[j].lang != lang
  {
    if voices == [] then None
    else if voices[0].lang == lang then Some(0)
    else
      match FindLang(voices[1..], lang)
      case None => None
      case Some(k) => Some(k + 1)
  }

  /** `voices.findIndex(v => v.lang.startsWith(prefix))`, as an option. */
  function FindLangPrefix(voices: seq<Voice>, prefix: string): (r: Option<nat>)
    ensures r.Some? ==> r.value < |voices| && StartsWith(voices[r.value].lang, prefix)
    ensures r.Some? ==> forall j :: 0 <= j < r.value ==> !StartsWith(voices[j].lang, prefix)
    ensures r.None? ==> forall j :: 0 <= j < |voices| ==> !StartsWith(voices[j].lang, prefix)
  {
    if voices == [] then None
    else if StartsWith(voices[0].lang, prefix) then Some(0)
    else
      match FindLangPrefix(voices[1..], prefix)
      case None => None
      case Some(k) => Some(k + 1)
  }

  /** The voice given to an utterance: the first whose language is `lang`,
      else the first French one, else the first voice, else none. */
  function ChooseVoice(voices: seq<Voice>, lang: string): (r: Option<Voice>)
    ensures r.None? <==> voices == []
    ensures r.Some? ==> r.value in voices
    ensures (exists j :: 0 <= j < |voices| && voices[j].lang == lang) ==> r.Some? && r.value.lang == lang
    ensures (forall j :: 0 <= j < |voices| ==> voices[j].lang != lang) && (exists j :: 0 <= j < |voices| && StartsWith(voices[j].lang, "fr"))
      ==> r.Some? && StartsWith(r.value.lang, "fr")
    ensures FindLang(voices, lang).Some? ==> r == Some(voices[FindLang(voices, lang).value])
    ensures FindLang(voices, lang).None? && FindLangPrefix(voices, "fr").Some? ==>
      r == Some(voices[FindLangPrefix(voices, "fr").value])
    ensures FindLang(voices, lang).None? && FindLangPrefix(voices, "fr").None? && voices != [] ==>
      r == Some(voices[0])
  {
    match FindLang(voices, lang)
    case Some(i) => Some(voices[i])
    case None =>
      match FindLangPrefix(voices, "fr")
      case Some(i) => Some(voices[i])
      case None => if voices == [] then None else Some(voices[0])
  }

  // ---------------------------------------------------------------------
  // The hook's operations on its state
  // ---------------------------------------------------------------------

  /** The silent utterance played once to unlock speech output. */
  const SilentUtterance: Utterance := Utterance(" ", None, true, None)

  /** The synthesizer calls of `speak(text)`: nothing when the text is blank
      or cleans to nothing, otherwise a cancel of whatever is playing
      followed by exactly one audible utterance of the cleaned text. */
  function SpeakCalls(text: string, lang: string, voices: seq<Voice>): (r: seq<SynthCall>)
    ensures r == [] <==> Clean(text) == []
    ensures r != [] ==> |r| == 2 && r[0] == Cancel && r[1].Speak?
    ensures r != [] ==> r[1].utterance == Utterance(Clean(text), Some(lang), false, ChooseVoice(voices, lang))
  {
    if IsBlank(text) then
      CleanBlank(text);
      []
    else
      var clean := Clean(text);
      if clean == [] then []
      else [Cancel, Speak(Utterance(clean, Some(lang), false, ChooseVoice(voices, lang)))]
  }

  /** `enqueue(chunk)`: the chunk is added to the buffer; nothing is spoken. */
  function Enqueued(s: OutputState, chunk: string): (r: OutputState)
    ensures r.buffer == s.buffer + chunk && r.synth == s.synth
  {
    s.(buffer := s.buffer + chunk)
  }

  /** `flush()`: the buffer is emptied and its trimmed text is spoken when
      non-empty. */
  function Flushed(s: OutputState, lang: string, voices: seq<Voice>): (r: OutputState)
    ensures r.buffer == []
    ensures |r.synth| >= |s.synth| && r.synth[..|s.synth|] == s.synth
    ensures IsBlank(s.buffer) ==> r.synth == s.synth
    ensures r.synth == s.synth + FlushCalls(s.buffer, lang, voices)
    ensures r.isSpeaking == s.isSpeaking && r.unlocked == s.unlocked
  {
    s.(buffer := [], synth := s.synth + FlushCalls(s.buffer, lang, voices))
  }

  /** What `flush()` asks of the synthesizer: the buffer's trimmed text is
      spoken when it is not empty. */
  function FlushCalls(buffer: string, lang: string, voices: seq<Voice>): (r: seq<SynthCall>)
    ensures IsBlank(buffer) ==> r == []
    ensures !IsBlank(buffer) ==> r == SpeakCalls(Trim(buffer), lang, voices)
  {
    var text := Trim(buffer);
    if text != [] then SpeakCalls(text, lang, voices) else []
  }

  /** A flush of a buffer whose trimmed text cleans to something speaks it:
      one cancel, then one audible utterance of the cleaned text, in the
      hook's language, with the chosen voice; the buffer is emptied. */
  lemma FlushSpeaks(s: OutputState, lang: string, voices: seq<Voice>)
    requires Clean(Trim(s.buffer)) != []
    ensures var r := Flushed(s, lang, voices);
      && r.buffer == []
      && r.synth == s.synth + [Cancel, Speak(Utterance(Clean(Trim(s.buffer)), Some(lang), false, ChooseVoice(voices, lang)))]
  {
  }

  /** `stop()`: cancel what is playing, empty the buffer, not speaking. */
  function Stopped(s: OutputState): (r: OutputState)
    ensures r.buffer == [] && !r.isSpeaking && r.synth == s.synth + [Cancel]
    ensures r.unlocked == s.unlocked
  {
    s.(buffer := [], isSpeaking := false, synth := s.synth + [Cancel])
  }

  /** `unlock()`: the first call plays the silent utterance; later calls do nothing. */
  function Unlocked(s: OutputState): (r: OutputState)
    ensures r.unlocked
    ensures s.unlocked ==> r == s
    ensures !s.unlocked ==> r.synth == s.synth + [Speak(SilentUtterance)] && r.buffer == s.buffer
    ensures r.isSpeaking == s.isSpeaking && r.buffer == s.buffer
  {
    if s.unlocked then s else s.(synth := s.synth + [Speak(SilentUtterance)], unlocked := true)
  }

  // ---------------------------------------------------------------------
  // The invariant of the call log
  // ---------------------------------------------------------------------

  /** How many silent utterances the log holds. */
  function MutedCount(calls: seq<SynthCall>): nat {
    if calls == [] then 0
    else (if calls[0].Speak? && calls[0].utterance.muted then 1 else 0) + MutedCount(calls[1..])
  }

  lemma {:induction false} MutedCountAppend(a: seq<SynthCall>, b: seq<SynthCall>)
    ensures MutedCount(a + b) == MutedCount(a) + MutedCount(b)
  {
    if a == [] {
      assert a + b == b;
    } else {
      assert (a + b)[1..] == a[1..] + b;
      MutedCountAppend(a[1..], b);
    }
  }

  /** Every audible utterance comes right after a cancel and carries
      non-empty, trimmed text; stated call by call, from the last one back. */
  predicate CancelThenSpeak(calls: seq<SynthCall>)
    decreases |calls|
  {
    calls == [] || (CancelThenSpeak(calls[..|calls| - 1]) && SpokenAfterCancel(calls[..|calls| - 1], calls[|calls| - 1]))
  }

  /** The call `c`, made after `before`, is silent or follows a cancel and
      speaks non-empty, trimmed text. */
  predicate SpokenAfterCancel(before: seq<SynthCall>, c: SynthCall) {
    Audible(c) ==>
      before != [] && before[|before| - 1] == Cancel
      && c.utterance.text != [] && !IsSpace(c.utterance.text[0]) && !IsSpace(c.utterance.text[|c.utterance.text| - 1])
  }

  predicate Audible(c: SynthCall) {
    c.Speak? && !c.utterance.muted
  }

  /** What `CancelThenSpeak` says of any one call of the log. */
  lemma {:induction false} CancelThenSpeakAt(calls: seq<SynthCall>, k: nat)
    requires CancelThenSpeak(calls) && k < |calls| && Audible(calls[k])
    ensures k > 0 && calls[k - 1] == Cancel
    ensures calls[k].utterance.text != [] && !IsSpace(calls[k].utterance.text[0])
    ensures !IsSpace(calls[k].utterance.text[|calls[k].utterance.text| - 1])
    decreases |calls|
  {
    var before := calls[..|calls| - 1];
    if k < |calls| - 1 {
      assert before[k] == calls[k];
      CancelThenSpeakAt(before, k);
      assert before[k - 1] == calls[k - 1];
    } else {
      assert SpokenAfterCancel(before, calls[k]);
    }
  }

  /** What the hook's state keeps true: cancel-then-speak, and the silent
      utterance played exactly once once unlocked and never before. */
  predicate WellFormed(s: OutputState) {
    CancelThenSpeak(s.synth) && MutedCount(s.synth) == (if s.unlocked then 1 else 0)
  }

  lemma {:induction false} CancelThenSpeakAppend(a: seq<SynthCall>, b: seq<SynthCall>)
    requires CancelThenSpeak(a) && CancelThenSpeak(b)
    requires b != [] ==> b[0] == Cancel || (b[0].Speak? && b[0].utterance.muted)
    ensures CancelThenSpeak(a + b)
    decreases |b|
  {
    if b == [] {
      assert a + b == a;
    } else {
      var front := b[..|b| - 1];
      var c := b[|b| - 1];
      assert front != [] ==> front[0] == b[0];
      CancelThenSpeakAppend(a, front);
      assert (a + b)[..|a + b| - 1] == a + front;
      assert (a + b)[|a + b| - 1] == c;
      if Audible(c) {
        assert front != [];
        assert (a + front)[|a + front| - 1] == front[|front| - 1];
      }
    }
  }

  /** The initial state is well formed. */
  lemma InitialWellFormed()
    ensures WellFormed(OutputState([], false, false, []))
  {
  }

  /** What `speak` adds to the log keeps the log's invariant and plays no
      silent utterance. */
  lemma SpeakCallsWellFormed(text: string, lang: string, voices: seq<Voice>)
    ensures var calls := SpeakCalls(text, lang, voices);
      CancelThenSpeak(calls) && MutedCount(calls) == 0 && (calls != [] ==> calls[0] == Cancel)
  {
    var calls := SpeakCalls(text, lang, voices);
    if calls != [] {
      CancelSpeakPair(calls);
    }
  }

  /** A cancel followed by one audible utterance of trimmed, non-empty text
      keeps the log's invariant and plays no silent utterance. */
  lemma CancelSpeakPair(calls: seq<SynthCall>)
    requires |calls| == 2 && calls[0] == Cancel && calls[1].Speak?
    requires var u := calls[1].utterance; !u.muted && u.text != [] && !IsSpace(u.text[0]) && !IsSpace(u.text[|u.text| - 1])
    ensures CancelThenSpeak(calls) && MutedCount(calls) == 0
  {
    var first := calls[..1];
    assert first[..0] == [] && !Audible(Cancel);
    assert CancelThenSpeak(first);
    assert calls[..|calls| - 1] == first;
    var last := calls[1..];
    assert last[1..] == [];
    assert MutedCount(last) == 0;
  }

  /** Appending calls that start with a cancel, keep cancel-then-speak and
      play no silent utterance preserves the log's invariant. */
  lemma AppendWellFormed(s: OutputState, calls: seq<SynthCall>)
    requires WellFormed(s)
    requires CancelThenSpeak(calls) && MutedCount(calls) == 0 && (calls != [] ==> calls[0] == Cancel)
    ensures WellFormed(s.(synth := s.synth + calls))
  {
    MutedCountAppend(s.synth, calls);
    CancelThenSpeakAppend(s.synth, calls);
  }

  lemma FlushedWellFormed(s: OutputState, lang: string, voices: seq<Voice>)
    requires WellFormed(s)
    ensures WellFormed(Flushed(s, lang, voices))
  {
    var text := Trim(s.buffer);
    SpeakCallsWellFormed(text, lang, voices);
    assert CancelThenSpeak([]) && MutedCount([]) == 0;
    AppendWellFormed(s.(buffer := []), FlushCalls(s.buffer, lang, voices));
  }

  lemma {:induction false} StoppedWellFormed(s: OutputState)
    requires WellFormed(s)
    ensures WellFormed(Stopped(s))
  {
    MutedCountAppend(s.synth, [Cancel]);
    CancelThenSpeakAppend(s.synth, [Cancel]);
  }

  lemma {:induction false} UnlockedWellFormed(s: OutputState)
    requires WellFormed(s)
    ensures WellFormed(Unlocked(s))
  {
    if !s.unlocked {
      var silent := [Speak(SilentUtterance)];
      assert MutedCount(silent) == 1 by {
        assert silent[1..] == [];
      }
      assert CancelThenSpeak(silent) by {
        assert !Audible(Speak(SilentUtterance));
        assert silent[..|silent| - 1] == [];
      }
      MutedCountAppend(s.synth, silent);
      CancelThenSpeakAppend(s.synth, silent);
    }
  }

  /** A second flush in a row speaks nothing and changes nothing. */
  lemma FlushTwice(s: OutputState, lang: string, voices: seq<Voice>, voices': seq<Voice>)
    ensures Flushed(Flushed(s, lang, voices), lang, voices') == Flushed(s, lang, voices)
  {
    assert Trim([]) == [];
  }

  /** `unlock` is idempotent, and in a well-formed state the silent
      utterance is played at most once however often it is called. */
  lemma UnlockOnce(s: OutputState)
    requires WellFormed(s)
    ensures Unlocked(Unlocked(s)) == Unlocked(s)
    ensures MutedCount(Unlocked(s).synth) == 1
  {
    UnlockedWellFormed(s);
  }

  // ---------------------------------------------------------------------
  // The hook
  // ---------------------------------------------------------------------

  class SpeechOutput {
    const lang: string
    var buffer: string
    var isSpeaking: bool
    var unlocked: bool
    var synth: seq<SynthCall>

    function State(): OutputState
      reads this
    {
      OutputState(buffer, isSpeaking, unlocked, synth)
    }

    predicate Valid()
      reads this
    {
      WellFormed(State())
    }

    constructor(lang: string)
      ensures this.lang == lang
      ensures State() == OutputState([], false, false, [])
      ensures Valid()
    {
      this.lang := lang;
      buffer := [];
      isSpeaking := false;
      unlocked := false;
      synth := [];
    }

    method Unlock()
      requires Valid()
      modifies this
      ensures State() == Unlocked(old(State()))
      ensures Valid()
    {
      UnlockedWellFormed(State());
      if unlocked {
        return;
      }
      synth := synth + [Speak(SilentUtterance)];
      unlocked := true;
    }

    /** `speak(text)`, given the voices the synthesizer lists at that moment. */
    method SpeakText(text: string, voices: seq<Voice>)
      modifies this
      ensures State() == old(State()).(synth := old(synth) + SpeakCalls(text, lang, voices))
    {
      if !IsBlank(text) {
        var clean := Clean(text);
        if clean != [] {
          var voice := ChooseVoice(voices, lang);
          var utterance := Utterance(clean, Some(lang), false, voice);
          synth := synth + [Cancel, Speak(utterance)];
        }
      }
    }

    method Enqueue(chunk: string)
      requires Valid()
      modifies this
      ensures State() == Enqueued(old(State()), chunk)
      ensures Valid()
    {
      buffer := buffer + chunk;
    }

    method Flush(voices: seq<Voice>)
      requires Valid()
      modifies this
      ensures State() == Flushed(old(State()), lang, voices)
      ensures Valid()
    {
      ghost var s := State();
      FlushedWellFormed(s, lang, voices);
      var text := Trim(buffer);
      buffer := [];
      if text != [] {
        SpeakText(text, voices);
      }
    }

    method Stop()
      requires Valid()
      modifies this
      ensures State() == Stopped(old(State()))
      ensures Valid()
    {
      StoppedWellFormed(State());
      synth := synth + [Cancel];
      buffer := [];
      isSpeaking := false;
    }

    /** The spoken utterance's `onstart`. */
    method UtteranceStarted()
      requires Valid()
      modifies this
      ensures State() == old(State()).(isSpeaking := true)
      ensures Valid()
    {
      isSpeaking := true;
    }

    /** The spoken utterance's `onend` or `onerror`. */
    method UtteranceEnded()
      requires Valid()
      modifies this
      ensures State() == old(State()).(isSpeaking := false)
      ensures Valid()
    {
      isSpeaking := false;
    }
  }
}
