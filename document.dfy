/**
 * A capture session document (Document.swift), at the level of the
 * property-list dictionary it is saved as.  The binary encoding of that
 * dictionary is not modelled: a saved document is the property-list value
 * itself, and reading takes the value the bytes decoded to, or nothing when
 * they were not a property list.
 */
module Document {
  import opened Wrappers
  import Annotations

  /** The one document type the session reads and writes. */
  const SessionType: string := "edu.GardnerLab.VideoCaptureSession"

  /** A property-list value, as far as the session reads it. */
  datatype PlistValue =
    | PInt(i: int)
    | PString(s: string)
    | PDict(entries: map<string, PlistValue>)
    | POther

  /** What reading or writing can end in: `readErr`, `writErr`, or the trap of a failing `UInt8(...)` conversion. */
  datatype DocError = ReadErr | WriteErr | Trap

  /** `UInt8`. */
  type UInt8 = b: int | 0 <= b < 256

  /** Everything about a session that is saved. */
  datatype Session = Session(name: string, devVideo: string, devAudio: string, devSerial: string, outputDirectory: string, ledBrightness: UInt8)

  /** A fresh document's session. */
  const DefaultSession: Session := Session("Capture Session", "", "", "", "", 0)

  /** `dict[key] as? String ?? fallback`. */
  function StringOr(d: map<string, PlistValue>, key: string, fallback: string): (r: string)
    ensures key in d && d[key].PString? ==> r == d[key].s
    ensures !(key in d && d[key].PString?) ==> r == fallback
  {
    if key in d && d[key].PString? then d[key].s else fallback
  }

  /** `dict[key] as? Int ?? fallback`. */
  function IntOr(d: map<string, PlistValue>, key: string, fallback: int): (r: int)
    ensures key in d && d[key].PInt? ==> r == d[key].i
    ensures !(key in d && d[key].PInt?) ==> r == fallback
  {
    if key in d && d[key].PInt? then d[key].i else fallback
  }

  /** The dictionary written for `s`, its output directory under the key `dirKey`. */
  function EncodeWith(s: Session, dirKey: string): PlistValue
  {
    PDict(map[
      "Version" := PInt(1),
      "Name" := PString(s.name),
      "DeviceVideo" := PString(s.devVideo),
      "DeviceAudio" := PString(s.devAudio),
      "DeviceSerial" := PString(s.devSerial),
      dirKey := PString(s.outputDirectory),
      "LEDBrightness" := PInt(s.ledBrightness)
    ])
  }

  /** `dataOfType`'s dictionary as written: the output directory goes under the misspelt key `OuputDirectory`. */
  function Encode(s: Session): (p: PlistValue)
    ensures p.PDict? && p.entries.Keys == {"Version", "Name", "DeviceVideo", "DeviceAudio", "DeviceSerial", "OuputDirectory", "LEDBrightness"}
    ensures p.PDict? && p.entries["Version"] == PInt(1) && p.entries["OuputDirectory"] == PString(s.outputDirectory)
  {
    EncodeWith(s, "OuputDirectory")
  }

  /** The dictionary with the output directory under `OutputDirectory`, the key reading looks for. */
  function EncodeCorrected(s: Session): (p: PlistValue)
    ensures p.PDict? && p.entries.Keys == {"Version", "Name", "DeviceVideo", "DeviceAudio", "DeviceSerial", "OutputDirectory", "LEDBrightness"}
    ensures p.PDict? && p.entries["Version"] == PInt(1) && p.entries["OutputDirectory"] == PString(s.outputDirectory)
  {
    EncodeWith(s, "OutputDirectory")
  }

  /** Whether `p` is a dictionary whose `Version` is the integer 1. */
  predicate VersionOne(p: PlistValue)
  {
    p.PDict? && "Version" in p.entries && p.entries["Version"] == PInt(1)
  }

  /**
   * `readFromData`'s reading of a property list: anything other than a
   * dictionary with `Version` 1 is refused; every other key falls back to
   * its default when it is missing or of the wrong type; a brightness that
   * does not fit a `UInt8` traps.
   */
  function Decode(p: PlistValue): (r: Result<Session, DocError>)
    ensures !VersionOne(p) ==> r == Err(ReadErr)
    ensures VersionOne(p) ==> (r.Err? <==> !(0 <= IntOr(p.entries, "LEDBrightness", 0) < 256))
    ensures r.Err? ==> r.error != WriteErr
    ensures r.Ok? ==> r.value.name == StringOr(p.entries, "Name", "Capture Session")
    ensures r.Ok? ==> r.value.devVideo == StringOr(p.entries, "DeviceVideo", "")
    ensures r.Ok? ==> r.value.devAudio == StringOr(p.entries, "DeviceAudio", "")
    ensures r.Ok? ==> r.value.devSerial == StringOr(p.entries, "DeviceSerial", "")
    ensures r.Ok? ==> r.value.outputDirectory == StringOr(p.entries, "OutputDirectory", "")
    ensures r.Ok? ==> r.value.ledBrightness == IntOr(p.entries, "LEDBrightness", 0)
  {
    if !VersionOne(p) then Err(ReadErr)
    else
      var d := p.entries;
      var b := IntOr(d, "LEDBrightness", 0);
      if 0 <= b < 256 then
        Ok(Session(StringOr(d, "Name", "Capture Session"), StringOr(d, "DeviceVideo", ""), StringOr(d, "DeviceAudio", ""),
                   StringOr(d, "DeviceSerial", ""), StringOr(d, "OutputDirectory", ""), b))
      else Err(Trap)
  }

  /** An empty dictionary of the right version reads as a fresh session. */
  lemma EmptyReadsAsDefault()
    ensures Decode(PDict(map["Version" := PInt(1)])) == Ok(DefaultSession)
  {
  }

  /** Saving and reopening keeps everything but the output directory, which comes back empty. */
  lemma RoundTripLosesOutputDirectory(s: Session)
    ensures Decode(Encode(s)) == Ok(s.(outputDirectory := ""))
  {
    var d := Encode(s).entries;
    assert "OutputDirectory" !in d;
  }

  /** A session with a directory set does not survive saving and reopening. */
  lemma RoundTripCounterexample()
    ensures var s := Session("Session", "", "", "", "/data", 0);
      Decode(Encode(s)) != Ok(s)
  {
    RoundTripLosesOutputDirectory(Session("Session", "", "", "", "/data", 0));
  }

  /** With the key spelt as reading expects, saving and reopening gives the same session back. */
  lemma CorrectedRoundTrip(s: Session)
    ensures Decode(EncodeCorrected(s)) == Ok(s)
  {
  }

  /** A brightness outside 0...255 traps, whatever else the dictionary holds. */
  lemma WideBrightnessTraps(d: map<string, PlistValue>, b: int)
    requires "Version" in d && d["Version"] == PInt(1)
    requires !(0 <= b < 256)
    ensures Decode(PDict(d["LEDBrightness" := PInt(b)])) == Err(Trap)
  {
  }

  /** `Document`. */
  class Document {
    var name: string
    var devVideo: string
    var devAudio: string
    var devSerial: string
    var outputDirectory: string
    /** Kept with the document but neither written nor read. */
    var listAnnotations: seq<Annotations.Annotation>
    var ledBrightness: UInt8

    constructor()
      ensures Current() == DefaultSession && listAnnotations == []
    {
      name := "Capture Session";
      devVideo := "";
      devAudio := "";
      devSerial := "";
      outputDirectory := "";
      listAnnotations := [];
      ledBrightness := 0;
    }

    /** The saved part of the document. */
    function Current(): Session
      reads this
    {
      Session(name, devVideo, devAudio, devSerial, outputDirectory, ledBrightness)
    }

    /** `dataOfType`: the session's dictionary, for the session type only. */
    method DataOfType(typeName: string) returns (r: Result<PlistValue, DocError>)
      ensures typeName != SessionType ==> r == Err(WriteErr)
      ensures typeName == SessionType ==> r == Ok(Encode(Current()))
    {
      if SessionType != typeName {
        return Err(WriteErr);
      }
      var dict: map<string, PlistValue> := map[];
      dict := dict["Version" := PInt(1)];
      dict := dict["Name" := PString(name)];
      dict := dict["DeviceVideo" := PString(devVideo)];
      dict := dict["DeviceAudio" := PString(devAudio)];
      dict := dict["DeviceSerial" := PString(devSerial)];
      dict := dict["OuputDirectory" := PString(outputDirectory)];
      dict := dict["LEDBrightness" := PInt(ledBrightness)];
      return Ok(PDict(dict));
    }

    /**
     * `readFromData`: `plist` is what the data decoded to, `None` when it
     * was not a property list.  A brightness outside 0...255 traps, after
     * which the document is no longer observed, so the model promises
     * nothing about its fields then.
     */
    method ReadFromData(plist: Option<PlistValue>, typeName: string) returns (err: Option<DocError>)
      modifies this
      ensures listAnnotations == old(listAnnotations)
      ensures typeName != SessionType || plist.None? ==> err == Some(ReadErr) && Current() == old(Current())
      ensures typeName == SessionType && plist.Some? ==>
        match Decode(plist.value)
        case Ok(s) => err == None && Current() == s
        case Err(e) => err == Some(e) && (e == ReadErr ==> Current() == old(Current()))
    {
      if SessionType != typeName {
        return Some(ReadErr);
      }
      if plist.None? {
        return Some(ReadErr);
      }
      if !plist.value.PDict? {
        return Some(ReadErr);
      }
      var dict := plist.value.entries;
      if !("Version" in dict && dict["Version"] == PInt(1)) {
        return Some(ReadErr);
      }
      name := StringOr(dict, "Name", "Capture Session");
      devVideo := StringOr(dict, "DeviceVideo", "");
      devAudio := StringOr(dict, "DeviceAudio", "");
      devSerial := StringOr(dict, "DeviceSerial", "");
      outputDirectory := StringOr(dict, "OutputDirectory", "");
      var b := IntOr(dict, "LEDBrightness", 0);
      if !(0 <= b < 256) {
        return Some(Trap);
      }
      ledBrightness := b;
      return None;
    }
  }

  /** Saving a document and reading the result into another copies it, except for the output directory. */
  method SaveAndReopen(source: Document, target: Document) returns (err: Option<DocError>)
    requires source != target
    modifies target
    ensures err == None
    ensures target.Current() == source.Current().(outputDirectory := "")
  {
    var data := source.DataOfType(SessionType);
    RoundTripLosesOutputDirectory(source.Current());
    err := target.ReadFromData(Some(data.value), SessionType);
  }
}
