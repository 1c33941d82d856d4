/**
 * The `AudioDevice` record: an identifier, a name, a media type, a mutable
 * default flag and three capability lists, with membership queries.
 */
module AudioDeviceModel {
  const DefaultSampleRates: seq<int> := [44100, 48000, 96000]
  const DefaultChannels: seq<int> := [1, 2]
  const DefaultBitDepths: seq<int> := [16, 24]

  /** `Array.prototype.includes` on a list of numbers: a scan from the front. */
  function Includes(s: seq<int>, x: int): (r: bool)
    ensures r <==> x in s
  {
    if s == [] then false else s[0] == x || Includes(s[1..], x)
  }

  /** The object `getInfo` returns. */
  datatype DeviceInfo = DeviceInfo(
    id: string,
    name: string,
    kind: string,
    isDefault: bool,
    supportedSampleRates: seq<int>,
    supportedChannels: seq<int>,
    supportedBitDepths: seq<int>)

  class AudioDevice {
    var id: string
    var name: string
    /** The `type` field. */
    var kind: string
    var isDefault: bool
    var sampleRates: seq<int>
    var channels: seq<int>
    var bitDepths: seq<int>

    /** A new device is not the default and has the standard capability lists; `type` defaults to "audio". */
    constructor(id: string, name: string, kind: string := "audio")
      ensures this.id == id && this.name == name && this.kind == kind && !isDefault
      ensures sampleRates == [44100, 48000, 96000] && channels == [1, 2] && bitDepths == [16, 24]
    {
      this.id := id;
      this.name := name;
      this.kind := kind;
      isDefault := false;
      sampleRates := DefaultSampleRates;
      channels := DefaultChannels;
      bitDepths := DefaultBitDepths;
    }

    /** `setDefault`: sets the flag and nothing else. */
    method SetDefault(isDefault: bool)
      modifies this
      ensures this.isDefault == isDefault
      ensures id == old(id) && name == old(name) && kind == old(kind)
      ensures sampleRates == old(sampleRates) && channels == old(channels) && bitDepths == old(bitDepths)
    {
      this.isDefault := isDefault;
    }

    function SupportsSampleRate(sampleRate: int): (r: bool)
      reads this
      ensures r <==> sampleRate in sampleRates
    {
      Includes(sampleRates, sampleRate)
    }

    function SupportsChannels(channelCount: int): (r: bool)
      reads this
      ensures r <==> channelCount in channels
    {
      Includes(channels, channelCount)
    }

    function SupportsBitDepth(bitDepth: int): (r: bool)
      reads this
      ensures r <==> bitDepth in bitDepths
    {
      Includes(bitDepths, bitDepth)
    }

    /** `getInfo`: a snapshot of every field, the lists under their `supported…` names. */
    function GetInfo(): (info: DeviceInfo)
      reads this
      ensures info.id == id && info.name == name && info.kind == kind && info.isDefault == isDefault
      ensures info.supportedSampleRates == sampleRates && info.supportedChannels == channels
      ensures info.supportedBitDepths == bitDepths
    {
      DeviceInfo(id, name, kind, isDefault, sampleRates, channels, bitDepths)
    }

    /** `toString`: the name, then the id in parentheses. */
    function ToString(): (r: string)
      reads this
      ensures |r| == |name| + |id| + 3
      ensures r[..|name|] == name && r[|name|..|name| + 2] == " (" && r[|name| + 2..] == id + ")"
    {
      name + " (" + id + ")"
    }
  }

  /**
   * A new device answers the capability queries from its standard lists: 48000 Hz, stereo and
   * 24-bit are supported; 22050 Hz, six channels and 32-bit are not.
   */
  method NewDeviceCapabilities() returns (rate: bool, oddRate: bool, stereo: bool, surround: bool, deep: bool, deeper: bool)
    ensures rate && stereo && deep
    ensures !oddRate && !surround && !deeper
  {
    var device := new AudioDevice("stereo_mix", "Stereo Mix");
    rate := device.SupportsSampleRate(48000);
    oddRate := device.SupportsSampleRate(22050);
    stereo := device.SupportsChannels(2);
    surround := device.SupportsChannels(6);
    deep := device.SupportsBitDepth(24);
    deeper := device.SupportsBitDepth(32);
  }

  /** Marking a device as default changes what `getInfo` reports for the flag and nothing else. */
  method SetDefaultInfo(device: AudioDevice) returns (before: DeviceInfo, after: DeviceInfo)
    modifies device
    ensures after == before.(isDefault := true)
  {
    before := device.GetInfo();
    device.SetDefault(true);
    after := device.GetInfo();
  }
}
