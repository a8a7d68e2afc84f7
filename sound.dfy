/**
 * One playing sound instance (MWSound::Sound): its position, volumes, pitch,
 * distance range, play flags and fade-out time. The playback itself (stop,
 * isPlaying, getTimeOffset, update) belongs to the audio backend and is not
 * part of this model.
 */
module Sound {

  /** A position in world space (osg::Vec3f), with real coordinates. */
  datatype Vec3 = Vec3(x: real, y: real, z: real)

  /**
   * MWBase::SoundManager::Play_TypeMask: the flag bits that give a sound's play
   * type (effect, voice, footsteps, music, movie = bits 4 to 8). Nothing proved
   * below depends on the particular bits.
   */
  const PLAY_TYPE_MASK: bv32 := 0x1F0

  /** The play-type part of a flag word. */
  function PlayTypeOf(flags: bv32): (t: bv32)
    ensures t & !PLAY_TYPE_MASK == 0
    ensures t | (flags & !PLAY_TYPE_MASK) == flags
    ensures t & PLAY_TYPE_MASK == flags & PLAY_TYPE_MASK
  {
    flags & PLAY_TYPE_MASK
  }

  /** The play type depends only on the bits inside the mask. */
  lemma PlayTypeIgnoresModeBits(flags: bv32, mode: bv32)
    requires mode & PLAY_TYPE_MASK == 0
    ensures PlayTypeOf(flags | mode) == PlayTypeOf(flags)
  {
  }

  class Sound {
    var pos: Vec3
    var volume: real
    var baseVolume: real
    var pitch: real
    var minDistance: real
    var maxDistance: real
    var flags: bv32
    var fadeOutTime: real

    constructor (pos: Vec3, vol: real, basevol: real, pitch: real, mindist: real, maxdist: real, flags: bv32)
      ensures this.pos == pos && volume == vol && baseVolume == basevol && this.pitch == pitch
      ensures minDistance == mindist && maxDistance == maxdist && this.flags == flags
      ensures fadeOutTime == 0.0
      ensures RealVolume() == vol * basevol
      ensures GetPlayType() == PlayTypeOf(flags)
    {
      this.pos := pos;
      volume := vol;
      baseVolume := basevol;
      this.pitch := pitch;
      minDistance := mindist;
      maxDistance := maxdist;
      this.flags := flags;
      fadeOutTime := 0.0;
    }

    /** getPlayType: the type bits of the flags, with every bit outside the type mask cleared. */
    function GetPlayType(): (t: bv32)
      reads this
      ensures t & !PLAY_TYPE_MASK == 0
      ensures t | (flags & !PLAY_TYPE_MASK) == flags
    {
      PlayTypeOf(flags)
    }

    /** The real volume of the note on mVolume: the instance volume times the base volume. */
    function RealVolume(): (v: real)
      reads this
    {
      volume * baseVolume
    }

    /** setPosition: only the position changes. */
    method SetPosition(p: Vec3)
      modifies this`pos
      ensures pos == p
      ensures GetPlayType() == old(GetPlayType()) && RealVolume() == old(RealVolume())
    {
      pos := p;
    }

    /** setVolume: only the instance volume changes; the base volume stays. */
    method SetVolume(v: real)
      modifies this`volume
      ensures volume == v && baseVolume == old(baseVolume)
      ensures RealVolume() == v * baseVolume
      ensures GetPlayType() == old(GetPlayType())
    {
      volume := v;
    }

    /** setFadeout: only the fade-out time changes. */
    method SetFadeout(duration: real)
      modifies this`fadeOutTime
      ensures fadeOutTime == duration
      ensures GetPlayType() == old(GetPlayType()) && RealVolume() == old(RealVolume())
    {
      fadeOutTime := duration;
    }
  }
}
