/**
 * The Bridge sample: remotes (the abstraction) drive devices (the realization).
 *
 * IDevice has two implementations, TV and Radio, with the same state: a power flag,
 * a volume the setter clamps into 0..100 and a channel the setter keeps at 1 or above.
 * Here one class Device stands for both; its kind says which one it is, and only a
 * radio has a station. The remote's operations are stated as steps on the device's
 * Settings value, and the properties are proved about those steps.
 */
module BridgeDevices {
  import opened Optional

  const MaxVolume := 100
  const VolumeStep := 10

  /** Math.Clamp(value, lo, hi). */
  function Clamp(value: int, lo: int, hi: int): (r: int)
    requires lo <= hi
    ensures lo <= r <= hi
    ensures lo <= value <= hi ==> r == value
    ensures r == lo || r == hi || r == value
  {
    if value < lo then lo else if value > hi then hi else value
  }

  /** Math.Max(1, value): the smallest channel at or above value that is at least 1. */
  function AtLeastOne(value: int): (r: int)
    ensures r >= 1 && r >= value
    ensures r == value || r == 1
  {
    if value < 1 then 1 else value
  }

  function Distance(a: int, b: int): nat
  {
    if a < b then b - a else a - b
  }

  /** The clamped value is the point of lo..hi nearest the requested one. */
  lemma ClampIsNearest(value: int, lo: int, hi: int, x: int)
    requires lo <= hi && lo <= x <= hi
    ensures Distance(Clamp(value, lo, hi), value) <= Distance(x, value)
  {
  }

  datatype DeviceKind = Television | RadioSet

  /** What a remote can observe of a device: IsEnabled, Volume and Channel. */
  datatype Settings = Settings(enabled: bool, volume: int, channel: int)

  /** The range the setters keep: volume in 0..100 and channel at least 1. */
  predicate InRange(s: Settings)
  {
    0 <= s.volume <= MaxVolume && s.channel >= 1
  }

  /** Assigning the Volume property. */
  function WithVolume(s: Settings, value: int): Settings
  {
    s.(volume := Clamp(value, 0, MaxVolume))
  }

  /** Assigning the Channel property. */
  function WithChannel(s: Settings, value: int): Settings
  {
    s.(channel := AtLeastOne(value))
  }

  /** Remote.TogglePower: Disable when enabled, otherwise Enable. */
  function TogglePowerStep(s: Settings): Settings
  {
    s.(enabled := !s.enabled)
  }

  /** Remote.VolumeDown: only when enabled and the volume is at least 10. */
  function VolumeDownStep(s: Settings): Settings
  {
    if s.enabled && s.volume >= VolumeStep then WithVolume(s, s.volume - VolumeStep) else s
  }

  /** Remote.VolumeUp: only when enabled and the volume is at most 90. */
  function VolumeUpStep(s: Settings): Settings
  {
    if s.enabled && s.volume <= MaxVolume - VolumeStep then WithVolume(s, s.volume + VolumeStep) else s
  }

  /** Remote.ChannelDown: only when enabled; the setter keeps the channel at 1 or above. */
  function ChannelDownStep(s: Settings): Settings
  {
    if s.enabled then WithChannel(s, s.channel - 1) else s
  }

  /** Remote.ChannelUp: only when enabled. */
  function ChannelUpStep(s: Settings): Settings
  {
    if s.enabled then WithChannel(s, s.channel + 1) else s
  }

  /** AdvancedRemote.Mute: volume 0, powered or not. */
  function MuteStep(s: Settings): Settings
  {
    WithVolume(s, 0)
  }

  /** AdvancedRemote.SetChannel: the channel the setter keeps, powered or not. */
  function SetChannelStep(s: Settings, channel: int): Settings
  {
    WithChannel(s, channel)
  }

  /** Every remote operation keeps the device in range. */
  lemma StepsKeepRange(s: Settings, channel: int)
    requires InRange(s)
    ensures InRange(TogglePowerStep(s))
    ensures InRange(VolumeDownStep(s)) && InRange(VolumeUpStep(s))
    ensures InRange(ChannelDownStep(s)) && InRange(ChannelUpStep(s))
    ensures InRange(MuteStep(s)) && InRange(SetChannelStep(s, channel))
  {
  }

  /** Even a device out of range is brought into range by the setters. */
  lemma SettersRange(s: Settings, volume: int, channel: int)
    ensures 0 <= WithVolume(s, volume).volume <= MaxVolume
    ensures WithChannel(s, channel).channel >= 1
  {
  }

  /** Toggling twice restores the power state, and toggling touches nothing else. */
  lemma ToggleTwice(s: Settings)
    ensures TogglePowerStep(s).enabled != s.enabled
    ensures TogglePowerStep(TogglePowerStep(s)) == s
  {
  }

  /** A disabled device ignores the volume and channel buttons. */
  lemma DisabledIgnoresButtons(s: Settings)
    requires !s.enabled
    ensures VolumeDownStep(s) == s && VolumeUpStep(s) == s
    ensures ChannelDownStep(s) == s && ChannelUpStep(s) == s
  {
  }

  /** VolumeUp adds exactly 10 up to 90 and does nothing above, so 95 stays 95. */
  lemma VolumeUpEffect(s: Settings)
    requires InRange(s) && s.enabled
    ensures s.volume <= 90 ==> VolumeUpStep(s) == s.(volume := s.volume + 10)
    ensures s.volume > 90 ==> VolumeUpStep(s) == s
  {
  }

  /** VolumeDown takes exactly 10 from 10 up and does nothing below. */
  lemma VolumeDownEffect(s: Settings)
    requires InRange(s) && s.enabled
    ensures s.volume >= 10 ==> VolumeDownStep(s) == s.(volume := s.volume - 10)
    ensures s.volume < 10 ==> VolumeDownStep(s) == s
  {
  }

  /** VolumeDown undoes a VolumeUp that took effect. */
  lemma VolumeUpThenDown(s: Settings)
    requires InRange(s) && s.enabled && s.volume <= 90
    ensures VolumeDownStep(VolumeUpStep(s)) == s
  {
  }

  /** ChannelUp adds one; ChannelDown takes one off except at channel 1, where it stays. */
  lemma ChannelEffects(s: Settings)
    requires InRange(s) && s.enabled
    ensures ChannelUpStep(s) == s.(channel := s.channel + 1)
    ensures s.channel > 1 ==> ChannelDownStep(s) == s.(channel := s.channel - 1)
    ensures s.channel == 1 ==> ChannelDownStep(s) == s
    ensures ChannelDownStep(ChannelUpStep(s)) == s
  {
  }

  /** Mute and SetChannel work without power and leave the other settings alone. */
  lemma AdvancedStepsIgnorePower(s: Settings, channel: int)
    ensures MuteStep(s) == Settings(s.enabled, 0, s.channel)
    ensures SetChannelStep(s, channel) == Settings(s.enabled, s.volume, if channel < 1 then 1 else channel)
  {
  }

  /** A TV or a Radio. */
  class Device {
    const kind: DeviceKind
    /** Radio.Station; a TV has none. */
    const station: Option<string>
    var enabled: bool
    var volume: int
    var channel: int

    function State(): Settings
      reads this
    {
      Settings(enabled, volume, channel)
    }

    /** A new TV: off, volume 50, channel 1. */
    constructor TV()
      ensures kind == Television && station == None
      ensures State() == Settings(false, 50, 1) && InRange(State())
    {
      kind := Television;
      station := None;
      enabled := false;
      volume := 50;
      channel := 1;
    }

    /** A new Radio: off, volume 30, channel 101, station FM. */
    constructor Radio()
      ensures kind == RadioSet && station == Some("FM")
      ensures State() == Settings(false, 30, 101) && InRange(State())
    {
      kind := RadioSet;
      station := Some("FM");
      enabled := false;
      volume := 30;
      channel := 101;
    }

    /** The Volume setter. */
    method SetVolume(value: int)
      modifies this`volume
      ensures State() == WithVolume(old(State()), value)
    {
      volume := Clamp(value, 0, MaxVolume);
    }

    /** The Channel setter. */
    method SetChannel(value: int)
      modifies this`channel
      ensures State() == WithChannel(old(State()), value)
    {
      channel := AtLeastOne(value);
    }

    method Enable()
      modifies this`enabled
      ensures State() == old(State()).(enabled := true)
    {
      enabled := true;
    }

    method Disable()
      modifies this`enabled
      ensures State() == old(State()).(enabled := false)
    {
      enabled := false;
    }
  }

  /** Remote, or AdvancedRemote when advanced is set. */
  class Remote {
    const device: Device
    const advanced: bool

    /** Remote(device) or AdvancedRemote(device). */
    constructor(device: Device, advanced: bool)
      ensures this.device == device && this.advanced == advanced
    {
      this.device := device;
      this.advanced := advanced;
    }

    method TogglePower()
      modifies device
      ensures device.State() == TogglePowerStep(old(device.State()))
    {
      if device.enabled {
        device.Disable();
      } else {
        device.Enable();
      }
    }

    method VolumeDown()
      modifies device
      ensures device.State() == VolumeDownStep(old(device.State()))
    {
      if device.enabled {
        if device.volume >= VolumeStep {
          device.SetVolume(device.volume - VolumeStep);
        }
      }
    }

    method VolumeUp()
      modifies device
      ensures device.State() == VolumeUpStep(old(device.State()))
    {
      if device.enabled {
        if device.volume <= MaxVolume - VolumeStep {
          device.SetVolume(device.volume + VolumeStep);
        }
      }
    }

    method ChannelDown()
      modifies device
      ensures device.State() == ChannelDownStep(old(device.State()))
    {
      if device.enabled {
        device.SetChannel(device.channel - 1);
      }
    }

    method ChannelUp()
      modifies device
      ensures device.State() == ChannelUpStep(old(device.State()))
    {
      if device.enabled {
        device.SetChannel(device.channel + 1);
      }
    }

    /** AdvancedRemote.Mute. */
    method Mute()
      requires advanced
      modifies device
      ensures device.State() == MuteStep(old(device.State()))
    {
      device.SetVolume(0);
    }

    /** AdvancedRemote.SetChannel. */
    method SetChannel(channel: int)
      requires advanced
      modifies device
      ensures device.State() == SetChannelStep(old(device.State()), channel)
    {
      device.SetChannel(channel);
    }
  }

  /** The sample's first part: a TV with a basic remote, switched on, one channel up and
      one step louder, ends on channel 2 at volume 60. */
  method TvDemo() returns (final: Settings)
    ensures final == Settings(true, 60, 2)
  {
    var tv := new Device.TV();
    var remote := new Remote(tv, false);
    remote.TogglePower();
    remote.ChannelUp();
    remote.VolumeUp();
    final := tv.State();
  }

  /** The sample's second part: a radio with an advanced remote, switched on, set to
      channel 105, one step louder and muted, ends on channel 105 at volume 0. */
  method RadioDemo() returns (final: Settings, station: Option<string>)
    ensures final == Settings(true, 0, 105) && station == Some("FM")
  {
    var radio := new Device.Radio();
    var remote := new Remote(radio, true);
    remote.TogglePower();
    remote.SetChannel(105);
    remote.VolumeUp();
    remote.Mute();
    final := radio.State();
    station := radio.station;
  }
}
