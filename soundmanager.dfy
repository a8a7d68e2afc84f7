/**
 * The registry state of the sound manager (MWSound::SoundManager): the
 * append-only list of sound buffers, the name-to-buffer map, the list of
 * unused buffers in front-newest order, the active sounds of each object and
 * the single say sound of each actor, with the voice loudness data.
 *
 * Playback is done by the audio backend: a sound the backend started is
 * given to the operations as a handle, and the backend's answer to
 * isPlaying() is given as the set of handles it reports as playing.
 */
module SoundManager {
  import opened Wrappers

  /** The MWWorld::Ptr keys of the registries: the empty Ptr (no actor) or an object. */
  datatype Ptr = NoPtr | Ref(id: nat)

  /** A sound started by the backend (MWBase::SoundPtr), by identity. */
  type SoundHandle = nat

  /** Sound_Buffer: the resource it plays and the volume and distance range taken from its ESM::Sound record. */
  datatype SoundBuffer = SoundBuffer(resourceName: string, volume: real, minDist: real, maxDist: real)

  /** An entry of mActiveSounds: a sound and the index of the buffer it plays. */
  datatype ActiveSound = ActiveSound(sound: SoundHandle, buffer: nat)

  /** An entry of mActiveSaySounds: the say sound and the voice file it plays. */
  datatype SaySound = SaySound(sound: SoundHandle, filename: string)

  /** Sound_Loudness: loudness samples of a voice file taken at a fixed rate. */
  datatype Loudness = Loudness(samplesPerSec: nat, samples: seq<real>)

  /** Loudness samples are on the scale [0,1]. */
  predicate ValidLoudness(l: Loudness)
  {
    forall i | 0 <= i < |l.samples| :: 0.0 <= l.samples[i] <= 1.0
  }

  /** The loudness at `sec` seconds into the voice file: the sample covering that time, 0 outside the data. */
  function LoudnessAt(l: Loudness, sec: real): (r: real)
    requires ValidLoudness(l)
    ensures 0.0 <= r <= 1.0
    ensures sec < 0.0 || l.samples == [] ==> r == 0.0
  {
    if sec < 0.0 then 0.0
    else
      var index := (sec * l.samplesPerSec as real).Floor;
      if 0 <= index < |l.samples| then l.samples[index] else 0.0
  }

  /** r can be obtained from s by deleting elements: the elements of r occur in s in the same order. */
  predicate IsSubsequence<T(==)>(r: seq<T>, s: seq<T>)
    decreases |s|
  {
    if r == [] then true
    else if s == [] then false
    else
      (r[|r| - 1] == s[|s| - 1] && IsSubsequence(r[..|r| - 1], s[..|s| - 1]))
      || IsSubsequence(r, s[..|s| - 1])
  }

  /** The entries of `list` that do not play buffer b, in their order and with their repeats. */
  function WithoutBuffer(list: seq<ActiveSound>, b: nat): (r: seq<ActiveSound>)
    ensures |r| <= |list|
    ensures IsSubsequence(r, list)
    ensures forall e: ActiveSound | e.buffer != b :: multiset(r)[e] == multiset(list)[e]
    ensures forall j | 0 <= j < |r| :: r[j].buffer != b
    ensures forall e :: e in r <==> e in list && e.buffer != b
  {
    if list == [] then []
    else
      var last := list[|list| - 1];
      var init := list[..|list| - 1];
      assert list == init + [last];
      var before := WithoutBuffer(init, b);
      if last.buffer == b then before
      else
        assert (before + [last])[..|before|] == before;
        before + [last]
  }

  /** The buffers of `s` other than b, in their order; a list without repeats stays without repeats. */
  function Without(s: seq<nat>, b: nat): (r: seq<nat>)
    ensures |r| <= |s|
    ensures IsSubsequence(r, s)
    ensures forall x :: x in r <==> x in s && x != b
    ensures (forall i, j | 0 <= i < j < |s| :: s[i] != s[j]) ==> forall i, j | 0 <= i < j < |r| :: r[i] != r[j]
  {
    if s == [] then []
    else
      var last := s[|s| - 1];
      var init := s[..|s| - 1];
      assert s == init + [last];
      assert (forall i, j | 0 <= i < j < |s| :: s[i] != s[j]) ==> last !in init;
      var before := Without(init, b);
      if last == b then before
      else
        assert (before + [last])[..|before|] == before;
        before + [last]
  }

  /** The removal over one object's entries: keeps, in order, those that do not play buffer b. */
  method RemoveBufferEntries(list: seq<ActiveSound>, b: nat) returns (kept: seq<ActiveSound>)
    ensures kept == WithoutBuffer(list, b)
  {
    kept := [];
    var i := 0;
    while i < |list|
      invariant 0 <= i <= |list|
      invariant kept == WithoutBuffer(list[..i], b)
    {
      assert list[..i + 1][..i] == list[..i];
      if list[i].buffer != b {
        kept := kept + [list[i]];
      }
      i := i + 1;
    }
    assert list[..i] == list;
  }

  /** The active sounds of an object, none when it has no entry. */
  function SoundsOf(m: map<Ptr, seq<ActiveSound>>, ref: Ptr): (sounds: seq<ActiveSound>)
  {
    if ref in m then m[ref] else []
  }

  class SoundManager {
    /** mSoundBuffers: grown at the back only, so the index of a buffer stays valid. */
    var soundBuffers: seq<SoundBuffer>
    /** mBufferNameMap: sound id to the index of its buffer. */
    var bufferNameMap: map<string, nat>
    /** mVoiceLipBuffers: voice file to its loudness data. */
    var voiceLipBuffers: map<string, Loudness>
    /** mUnusedBuffers: indices of buffers without users, the newest at the front. */
    var unusedBuffers: seq<nat>
    /** mActiveSounds: the sounds each object is playing. */
    var activeSounds: map<Ptr, seq<ActiveSound>>
    /** mActiveSaySounds: the one say sound of each actor. */
    var activeSaySounds: map<Ptr, SaySound>

    ghost predicate Valid()
      reads this
    {
      && (forall id | id in bufferNameMap :: bufferNameMap[id] < |soundBuffers|)
      && (forall i | 0 <= i < |unusedBuffers| :: unusedBuffers[i] < |soundBuffers|)
      && (forall i, j | 0 <= i < j < |unusedBuffers| :: unusedBuffers[i] != unusedBuffers[j])
      && (forall p | p in activeSounds ::
            forall j | 0 <= j < |activeSounds[p]| :: activeSounds[p][j].buffer < |soundBuffers|)
      && (forall f | f in voiceLipBuffers :: ValidLoudness(voiceLipBuffers[f]))
    }

    constructor ()
      ensures Valid()
      ensures soundBuffers == [] && bufferNameMap == map[] && voiceLipBuffers == map[]
      ensures unusedBuffers == [] && activeSounds == map[] && activeSaySounds == map[]
    {
      soundBuffers := [];
      bufferNameMap := map[];
      voiceLipBuffers := map[];
      unusedBuffers := [];
      activeSounds := map[];
      activeSaySounds := map[];
    }

    /** lookupSound: the buffer registered under the sound id, none when there is none. */
    function LookupSound(soundId: string): (r: Option<nat>)
      reads this
      requires Valid()
      ensures r.Some? <==> soundId in bufferNameMap
      ensures r.Some? ==> r.value < |soundBuffers| && r.value == bufferNameMap[soundId]
    {
      if soundId in bufferNameMap then Some(bufferNameMap[soundId]) else None
    }

    /** insertSound: appends the buffer at the back and registers it under the sound id. */
    method InsertSound(soundId: string, buffer: SoundBuffer) returns (b: nat)
      requires Valid()
      modifies this
      ensures Valid()
      ensures b == |old(soundBuffers)| && soundBuffers == old(soundBuffers) + [buffer]
      ensures forall i | 0 <= i < |old(soundBuffers)| :: soundBuffers[i] == old(soundBuffers[i])
      ensures bufferNameMap == old(bufferNameMap)[soundId := b]
      ensures LookupSound(soundId) == Some(b) && soundBuffers[b] == buffer
      ensures forall id | id != soundId :: LookupSound(id) == old(LookupSound(id))
      ensures voiceLipBuffers == old(voiceLipBuffers) && unusedBuffers == old(unusedBuffers)
      ensures activeSounds == old(activeSounds) && activeSaySounds == old(activeSaySounds)
    {
      b := |soundBuffers|;
      soundBuffers := soundBuffers + [buffer];
      bufferNameMap := bufferNameMap[soundId := b];
    }

    /** The most recently unused buffer: the front of the unused list. */
    function NewestUnused(): (b: Option<nat>)
      reads this
    {
      if unusedBuffers == [] then None else Some(unusedBuffers[0])
    }

    /** The longest unused buffer: the back of the unused list. */
    function OldestUnused(): (b: Option<nat>)
      reads this
    {
      if unusedBuffers == [] then None else Some(unusedBuffers[|unusedBuffers| - 1])
    }

    /** A buffer whose last user went away goes to the front of the unused list. */
    method MarkUnused(b: nat)
      requires Valid() && b < |soundBuffers| && b !in unusedBuffers
      modifies this`unusedBuffers
      ensures Valid()
      ensures unusedBuffers == [b] + old(unusedBuffers)
      ensures NewestUnused() == Some(b)
      ensures old(unusedBuffers) != [] ==> OldestUnused() == old(OldestUnused())
    {
      unusedBuffers := [b] + unusedBuffers;
    }

    /** A buffer that is used again leaves the unused list; the others keep their order. */
    method MarkUsed(b: nat)
      requires Valid()
      modifies this`unusedBuffers
      ensures Valid()
      ensures unusedBuffers == Without(old(unusedBuffers), b)
      ensures b !in unusedBuffers
    {
      var kept: seq<nat> := [];
      var i := 0;
      while i < |unusedBuffers|
        invariant 0 <= i <= |unusedBuffers|
        invariant kept == Without(unusedBuffers[..i], b)
      {
        assert unusedBuffers[..i + 1][..i] == unusedBuffers[..i];
        if unusedBuffers[i] != b {
          kept := kept + [unusedBuffers[i]];
        }
        i := i + 1;
      }
      assert unusedBuffers[..i] == unusedBuffers;
      forall k | 0 <= k < |kept|
        ensures kept[k] < |soundBuffers|
      {
        assert kept[k] in unusedBuffers;
      }
      unusedBuffers := kept;
    }

    /** sayDone: the actor is not speaking, i.e. it has no say sound the backend reports as playing. */
    function SayDone(ref: Ptr, playing: set<SoundHandle>): (done: bool)
      reads this
    {
      !(ref in activeSaySounds && activeSaySounds[ref].sound in playing)
    }

    /**
     * say: loads the loudness data of the voice file when it is not loaded
     * yet and makes `started` the actor's say sound, replacing any earlier
     * one. When the backend could not start the sound nothing is registered.
     */
    method Say(ref: Ptr, filename: string, loudness: Loudness, started: Option<SoundHandle>)
      requires Valid() && ValidLoudness(loudness)
      modifies this`voiceLipBuffers, this`activeSaySounds
      ensures Valid()
      ensures voiceLipBuffers == if filename in old(voiceLipBuffers) then old(voiceLipBuffers)
                                 else old(voiceLipBuffers)[filename := loudness]
      ensures activeSaySounds == if started.Some? then old(activeSaySounds)[ref := SaySound(started.value, filename)]
                                 else old(activeSaySounds)
      ensures started.Some? ==> !SayDone(ref, {started.value})
    {
      if filename !in voiceLipBuffers {
        voiceLipBuffers := voiceLipBuffers[filename := loudness];
      }
      if started.Some? {
        activeSaySounds := activeSaySounds[ref := SaySound(started.value, filename)];
      }
    }

    /** say without an actor: the say sound of the empty Ptr. */
    method SayWithoutActor(filename: string, loudness: Loudness, started: Option<SoundHandle>)
      requires Valid() && ValidLoudness(loudness)
      modifies this`voiceLipBuffers, this`activeSaySounds
      ensures Valid()
      ensures voiceLipBuffers == if filename in old(voiceLipBuffers) then old(voiceLipBuffers)
                                 else old(voiceLipBuffers)[filename := loudness]
      ensures activeSaySounds == if started.Some? then old(activeSaySounds)[NoPtr := SaySound(started.value, filename)]
                                 else old(activeSaySounds)
      ensures started.Some? ==> !SayDone(NoPtr, {started.value})
    {
      Say(NoPtr, filename, loudness, started);
    }

    /** stopSay: the actor has no say sound any more, so it is done speaking. */
    method StopSay(ref: Ptr)
      requires Valid()
      modifies this`activeSaySounds
      ensures Valid()
      ensures activeSaySounds == old(activeSaySounds) - {ref}
      ensures forall playing :: SayDone(ref, playing)
    {
      activeSaySounds := activeSaySounds - {ref};
    }

    /**
     * getSaySoundLoudness at the say sound's current time offset: on the scale
     * [0,1], and 0 when the actor is not saying anything.
     */
    function GetSaySoundLoudness(ref: Ptr, timeOffset: real): (r: real)
      reads this
      requires Valid()
      ensures 0.0 <= r <= 1.0
      ensures ref !in activeSaySounds ==> r == 0.0
      ensures ref in activeSaySounds && activeSaySounds[ref].filename !in voiceLipBuffers ==> r == 0.0
    {
      if ref in activeSaySounds && activeSaySounds[ref].filename in voiceLipBuffers then
        LoudnessAt(voiceLipBuffers[activeSaySounds[ref].filename], timeOffset)
      else
        0.0
    }

    /** The object has an entry playing the buffer of the sound id that the backend reports as playing. */
    predicate SoundPlaying(ref: Ptr, soundId: string, playing: set<SoundHandle>)
      reads this
      requires Valid()
    {
      && ref in activeSounds
      && LookupSound(soundId).Some?
      && exists j | 0 <= j < |activeSounds[ref]| ::
           activeSounds[ref][j].buffer == LookupSound(soundId).value && activeSounds[ref][j].sound in playing
    }

    /**
     * playSound3D for an object: a sound of a known id that the backend
     * started is registered under the object. The offset, the fraction of
     * the sound at which playback starts, must lie in [0,1].
     */
    method PlaySound3D(ref: Ptr, soundId: string, offset: real, started: Option<SoundHandle>)
      returns (r: Option<SoundHandle>)
      requires Valid() && 0.0 <= offset <= 1.0
      modifies this`activeSounds
      ensures Valid()
      ensures var b := LookupSound(soundId);
              if b.Some? && started.Some? then
                && r == started
                && activeSounds == old(activeSounds)[ref := SoundsOf(old(activeSounds), ref) + [ActiveSound(started.value, b.value)]]
              else
                r == None && activeSounds == old(activeSounds)
      ensures r.Some? ==> SoundPlaying(ref, soundId, {r.value})
    {
      var b := LookupSound(soundId);
      if b.Some? && started.Some? {
        var entry := ActiveSound(started.value, b.value);
        var list := SoundsOf(activeSounds, ref) + [entry];
        activeSounds := activeSounds[ref := list];
        assert list[|list| - 1] == entry;
        r := started;
      } else {
        r := None;
      }
    }

    /** playSound: a sound independent of any position, registered under the empty Ptr. */
    method PlaySound(soundId: string, offset: real, started: Option<SoundHandle>) returns (r: Option<SoundHandle>)
      requires Valid() && 0.0 <= offset <= 1.0
      modifies this`activeSounds
      ensures Valid()
      ensures var b := LookupSound(soundId);
              if b.Some? && started.Some? then
                && r == started
                && activeSounds == old(activeSounds)[NoPtr := SoundsOf(old(activeSounds), NoPtr) + [ActiveSound(started.value, b.value)]]
              else
                r == None && activeSounds == old(activeSounds)
    {
      r := PlaySound3D(NoPtr, soundId, offset, started);
    }

    /** getSoundPlaying: searches the object's entries for the sound id's buffer playing in the backend. */
    method GetSoundPlaying(ref: Ptr, soundId: string, playing: set<SoundHandle>) returns (found: bool)
      requires Valid()
      ensures found <==> SoundPlaying(ref, soundId, playing)
    {
      found := false;
      var b := LookupSound(soundId);
      if ref !in activeSounds || b.None? {
        return;
      }
      var list := activeSounds[ref];
      var i := 0;
      while i < |list| && !found
        invariant 0 <= i <= |list|
        invariant found <==> exists j | 0 <= j < i :: list[j].buffer == b.value && list[j].sound in playing
      {
        found := list[i].buffer == b.value && list[i].sound in playing;
        i := i + 1;
      }
    }

    /**
     * stopSound3D for one sound id: removes the object's entries that play
     * the sound id's buffer; the object's other entries and the entries of
     * every other object are kept.
     */
    method StopSound3D(ref: Ptr, soundId: string)
      requires Valid()
      modifies this`activeSounds
      ensures Valid()
      ensures var b := LookupSound(soundId);
              activeSounds == if ref in old(activeSounds) && b.Some?
                              then old(activeSounds)[ref := WithoutBuffer(old(activeSounds)[ref], b.value)]
                              else old(activeSounds)
      ensures forall q | q != ref :: q in activeSounds <==> q in old(activeSounds)
      ensures forall q | q != ref && q in activeSounds :: activeSounds[q] == old(activeSounds)[q]
      ensures forall playing :: !SoundPlaying(ref, soundId, playing)
    {
      var b := LookupSound(soundId);
      if ref in activeSounds && b.Some? {
        var list := activeSounds[ref];
        var kept := RemoveBufferEntries(list, b.value);
        forall j | 0 <= j < |kept|
          ensures kept[j].buffer < |soundBuffers|
        {
          assert kept[j] in list;
        }
        activeSounds := activeSounds[ref := kept];
      }
    }

    /** stopSound3D for all sounds: the object has no active sounds any more. */
    method StopSound3DAll(ref: Ptr)
      requires Valid()
      modifies this`activeSounds
      ensures Valid()
      ensures activeSounds == old(activeSounds) - {ref}
      ensures forall soundId, playing :: !SoundPlaying(ref, soundId, playing)
    {
      activeSounds := activeSounds - {ref};
    }
  }
}
