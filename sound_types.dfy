/**
 * Sound format detection (sound_types.cc): recognising a sound lump or
 * file by the magic bytes at its start, and by its file extension.
 *
 * The two library probes the detector consults (the game-music-emulator
 * header test and whether the tracker-module loader accepts the data) are
 * foreign code and come in as predicates; so does the extension, which the
 * path library splits off the file name.
 */
module SoundTypes {

  newtype uint8 = x: int | 0 <= x < 256

  datatype SoundFormat = Unknown | Wav | Ogg | Mp3 | Sid | Mus | Midi | Gme | Mod | Doom | Spk

  /** The data starts with the given ASCII characters. */
  predicate StartsWith(data: seq<uint8>, magic: string) {
    |magic| <= |data| && forall i :: 0 <= i < |magic| ==> data[i] as int == magic[i] as int
  }

  /**
   * The reliable header checks, first match first: "RIFF" is WAV, "Ogg" is
   * Ogg Vorbis, "PSID" or "RSID" is SID, "MUS" is the Doom music format and
   * "MThd" is MIDI.
   */
  function HeaderFormat(data: seq<uint8>): (r: SoundFormat)
    requires |data| >= 4
    ensures r in {Unknown, Wav, Ogg, Sid, Mus, Midi}
  {
    if data[0] as int == 'R' as int && data[1] as int == 'I' as int && data[2] as int == 'F' as int && data[3] as int == 'F' as int then Wav
    else if data[0] as int == 'O' as int && data[1] as int == 'g' as int && data[2] as int == 'g' as int then Ogg
    else if (data[0] as int == 'P' as int || data[0] as int == 'R' as int) && data[1] as int == 'S' as int &&
            data[2] as int == 'I' as int && data[3] as int == 'D' as int then Sid
    else if data[0] as int == 'M' as int && data[1] as int == 'U' as int && data[2] as int == 'S' as int then Mus
    else if data[0] as int == 'M' as int && data[1] as int == 'T' as int && data[2] as int == 'h' as int && data[3] as int == 'd' as int then Midi
    else Unknown
  }

  /**
   * Sound_DetectFormat. After the header checks come the library probes
   * (game-music-emulator first, then the tracker loader, which is given the
   * header length), then MP3 ("ID3", or a 0xFF byte followed by a byte
   * with a nonzero high nibble), then a first byte of 3 (Doom sound) or 0
   * (PC speaker). The code reads up to four bytes whatever the header
   * length says.
   */
  function DetectFormat(data: seq<uint8>, headerLen: int, gmeIdentifies: seq<uint8> -> bool,
                        modPlugLoads: (seq<uint8>, int) -> bool): (r: SoundFormat)
    requires |data| >= 4
    ensures HeaderFormat(data) != Unknown ==> r == HeaderFormat(data)
    ensures r == Unknown ==> HeaderFormat(data) == Unknown && !gmeIdentifies(data) && !modPlugLoads(data, headerLen)
                             && data[0] != 0x3 && data[0] != 0x0
    ensures r == Doom ==> data[0] == 0x3
    ensures r == Spk ==> data[0] == 0x0
  {
    if HeaderFormat(data) != Unknown then HeaderFormat(data)
    else if gmeIdentifies(data) then Gme
    else if modPlugLoads(data, headerLen) then Mod
    else if (data[0] as int == 'I' as int && data[1] as int == 'D' as int && data[2] as int == '3' as int) ||
            (data[0] == 0xFF && (data[1] as bv8 >> 4) & 0xF != 0) then Mp3
    else if data[0] == 0x3 then Doom
    else if data[0] == 0x0 then Spk
    else Unknown
  }

  /** Each header check exactly, with the earlier checks taking precedence. */
  lemma HeaderFormatCases(data: seq<uint8>)
    requires |data| >= 4
    ensures HeaderFormat(data) == Wav <==> StartsWith(data, "RIFF")
    ensures HeaderFormat(data) == Ogg <==> StartsWith(data, "Ogg")
    ensures HeaderFormat(data) == Sid <==> StartsWith(data, "PSID") || StartsWith(data, "RSID")
    ensures HeaderFormat(data) == Mus <==> StartsWith(data, "MUS")
    ensures HeaderFormat(data) == Midi <==> StartsWith(data, "MThd")
    ensures HeaderFormat(data) in {Unknown, Wav, Ogg, Sid, Mus, Midi}
  {
    assert StartsWith(data, "RIFF") <==> data[0] as int == 'R' as int && data[1] as int == 'I' as int && data[2] as int == 'F' as int && data[3] as int == 'F' as int;
    assert StartsWith(data, "Ogg") <==> data[0] as int == 'O' as int && data[1] as int == 'g' as int && data[2] as int == 'g' as int;
    assert StartsWith(data, "PSID") <==> data[0] as int == 'P' as int && data[1] as int == 'S' as int && data[2] as int == 'I' as int && data[3] as int == 'D' as int;
    assert StartsWith(data, "RSID") <==> data[0] as int == 'R' as int && data[1] as int == 'S' as int && data[2] as int == 'I' as int && data[3] as int == 'D' as int;
    assert StartsWith(data, "MUS") <==> data[0] as int == 'M' as int && data[1] as int == 'U' as int && data[2] as int == 'S' as int;
    assert StartsWith(data, "MThd") <==> data[0] as int == 'M' as int && data[1] as int == 'T' as int && data[2] as int == 'h' as int && data[3] as int == 'd' as int;
  }

  /**
   * A header match is reported whatever the library probes say, so data
   * with a recognised header is never reported as a game-music or tracker
   * format; and those two are reported exactly when no header matched and
   * their probe (the emulator's first) accepts the data.
   */
  lemma HeadersComeFirst(data: seq<uint8>, headerLen: int, gmeIdentifies: seq<uint8> -> bool,
                         modPlugLoads: (seq<uint8>, int) -> bool)
    requires |data| >= 4
    ensures HeaderFormat(data) != Unknown ==> DetectFormat(data, headerLen, gmeIdentifies, modPlugLoads) == HeaderFormat(data)
    ensures DetectFormat(data, headerLen, gmeIdentifies, modPlugLoads) == Gme <==>
              HeaderFormat(data) == Unknown && gmeIdentifies(data)
    ensures DetectFormat(data, headerLen, gmeIdentifies, modPlugLoads) == Mod <==>
              HeaderFormat(data) == Unknown && !gmeIdentifies(data) && modPlugLoads(data, headerLen)
  {
    HeaderFormatCases(data);
  }

  /** The MP3 test: "ID3", or a 0xFF byte then a byte of at least 0x10 (a nonzero high nibble). */
  lemma Mp3Detection(data: seq<uint8>, headerLen: int, gmeIdentifies: seq<uint8> -> bool,
                     modPlugLoads: (seq<uint8>, int) -> bool)
    requires |data| >= 4
    ensures DetectFormat(data, headerLen, gmeIdentifies, modPlugLoads) == Mp3 <==>
              HeaderFormat(data) == Unknown && !gmeIdentifies(data) && !modPlugLoads(data, headerLen) &&
              (StartsWith(data, "ID3") || (data[0] == 0xFF && data[1] >= 0x10))
  {
    HeaderFormatCases(data);
    assert StartsWith(data, "ID3") <==> data[0] as int == 'I' as int && data[1] as int == 'D' as int && data[2] as int == '3' as int;
    HighNibble(data[1]);
  }

  /** The high nibble of a byte is nonzero exactly when the byte is at least 16. */
  lemma HighNibble(b: uint8)
    ensures (b as bv8 >> 4) & 0xF != 0 <==> b >= 0x10
  {
    assert (b as bv8 >> 4) as int == b as int / 16;
  }

  /**
   * The fallbacks: a first byte of 3 is a Doom sound and of 0 a PC speaker
   * sound when nothing before matched, and anything else is Unknown.
   */
  lemma Fallbacks(data: seq<uint8>, headerLen: int, gmeIdentifies: seq<uint8> -> bool,
                  modPlugLoads: (seq<uint8>, int) -> bool)
    requires |data| >= 4
    requires HeaderFormat(data) == Unknown && !gmeIdentifies(data) && !modPlugLoads(data, headerLen)
    requires !StartsWith(data, "ID3") && !(data[0] == 0xFF && data[1] >= 0x10)
    ensures DetectFormat(data, headerLen, gmeIdentifies, modPlugLoads) ==
              if data[0] == 3 then Doom else if data[0] == 0 then Spk else Unknown
  {
    Mp3Detection(data, headerLen, gmeIdentifies, modPlugLoads);
  }

  const ModExtensions: seq<string> := [".mod", ".s3m", ".xm", ".it", ".669", ".amf", ".ams", ".dbm", ".dmf", ".dsm",
    ".far", ".mdl", ".med", ".mtm", ".okt", ".ptm", ".stm", ".ult", ".umx", ".mt2", ".psm"]

  const GmeExtensions: seq<string> := [".ay", ".gbs", ".gym", ".hes", ".nsf", ".sap", ".spc", ".vgm"]

  const DoomExtensions: seq<string> := [".dsp", ".pcs", ".gsp", ".gsw"]

  /**
   * Sound_FilenameToFormat on the file's extension (with its dot): exact,
   * case-sensitive comparison against the known extensions of each format.
   */
  function FilenameToFormat(ext: string): (r: SoundFormat)
    ensures r == Unknown <==> ext !in FixedExtensions && ext !in ModExtensions && ext !in GmeExtensions
                              && ext !in DoomExtensions
  {
    if ext == ".wav" || ext == ".wave" then Wav
    else if ext == ".ogg" then Ogg
    else if ext == ".mp3" then Mp3
    else if ext == ".sid" || ext == ".psid" then Sid
    else if ext == ".mus" then Mus
    else if ext == ".mid" || ext == ".midi" then Midi
    else if ext in ModExtensions then Mod
    else if ext in GmeExtensions then Gme
    else if ext in DoomExtensions then Doom
    else Unknown
  }

  /** The extensions of the formats tested one by one, before the lists. */
  const FixedExtensions: seq<string> := [".wav", ".wave", ".ogg", ".mp3", ".sid", ".psid", ".mus", ".mid", ".midi"]

  /** Every extension the lookup knows, grouped by format. */
  const ExtensionGroups: seq<(SoundFormat, seq<string>)> := [
    (Wav, [".wav", ".wave"]), (Ogg, [".ogg"]), (Mp3, [".mp3"]), (Sid, [".sid", ".psid"]), (Mus, [".mus"]),
    (Midi, [".mid", ".midi"]), (Mod, ModExtensions), (Gme, GmeExtensions), (Doom, DoomExtensions)]

  /** A table lookup: the format of the first group listing the extension, or Unknown. */
  function TableLookup(groups: seq<(SoundFormat, seq<string>)>, ext: string): SoundFormat {
    if |groups| == 0 then Unknown
    else if ext in groups[0].1 then groups[0].0
    else TableLookup(groups[1..], ext)
  }

  /** No tracker or game-music extension is also one of the earlier ones, so the order of the tests does not matter. */
  lemma ListsAreSeparate()
    ensures forall i :: 0 <= i < |ModExtensions| ==> ModExtensions[i] !in FixedExtensions
    ensures forall i :: 0 <= i < |GmeExtensions| ==> GmeExtensions[i] !in FixedExtensions && GmeExtensions[i] !in ModExtensions
  {
  }

  /** No Doom sound extension is any other format's. */
  lemma DoomListIsSeparate()
    ensures forall i :: 0 <= i < |DoomExtensions| ==>
      DoomExtensions[i] !in FixedExtensions && DoomExtensions[i] !in ModExtensions && DoomExtensions[i] !in GmeExtensions
  {
  }

  /** The first three groups of the table are the tests of WAV, Ogg and MP3. */
  lemma FirstGroups(ext: string)
    ensures TableLookup(ExtensionGroups, ext) ==
      if ext == ".wav" || ext == ".wave" then Wav
      else if ext == ".ogg" then Ogg
      else if ext == ".mp3" then Mp3
      else TableLookup(ExtensionGroups[3..], ext)
  {
    var g := ExtensionGroups;
    assert g[0] == (Wav, [".wav", ".wave"]);
    assert TableLookup(g, ext) == if ext in [".wav", ".wave"] then Wav else TableLookup(g[1..], ext);
    assert g[1..][0] == (Ogg, [".ogg"]) && g[1..][1..] == g[2..];
    assert TableLookup(g[1..], ext) == if ext in [".ogg"] then Ogg else TableLookup(g[2..], ext);
    assert g[2..][0] == (Mp3, [".mp3"]) && g[2..][1..] == g[3..];
    assert TableLookup(g[2..], ext) == if ext in [".mp3"] then Mp3 else TableLookup(g[3..], ext);
  }

  /** The next three groups are the tests of SID, MUS and MIDI. */
  lemma MiddleGroups(ext: string)
    ensures TableLookup(ExtensionGroups[3..], ext) ==
      if ext == ".sid" || ext == ".psid" then Sid
      else if ext == ".mus" then Mus
      else if ext == ".mid" || ext == ".midi" then Midi
      else TableLookup(ExtensionGroups[6..], ext)
  {
    var g := ExtensionGroups;
    assert g[3..][0] == (Sid, [".sid", ".psid"]) && g[3..][1..] == g[4..];
    assert TableLookup(g[3..], ext) == if ext in [".sid", ".psid"] then Sid else TableLookup(g[4..], ext);
    assert g[4..][0] == (Mus, [".mus"]) && g[4..][1..] == g[5..];
    assert TableLookup(g[4..], ext) == if ext in [".mus"] then Mus else TableLookup(g[5..], ext);
    assert g[5..][0] == (Midi, [".mid", ".midi"]) && g[5..][1..] == g[6..];
    assert TableLookup(g[5..], ext) == if ext in [".mid", ".midi"] then Midi else TableLookup(g[6..], ext);
  }

  /** The last three groups are the three lists, in the order they are tested. */
  lemma LastGroups(ext: string)
    ensures TableLookup(ExtensionGroups[6..], ext) ==
      if ext in ModExtensions then Mod else if ext in GmeExtensions then Gme else if ext in DoomExtensions then Doom else Unknown
  {
    var g := ExtensionGroups[6..];
    assert g == [(Mod, ModExtensions), (Gme, GmeExtensions), (Doom, DoomExtensions)];
    assert TableLookup(g, ext) == if ext in ModExtensions then Mod else TableLookup(g[1..], ext);
    assert g[1..] == [(Gme, GmeExtensions), (Doom, DoomExtensions)];
    assert TableLookup(g[1..], ext) == if ext in GmeExtensions then Gme else TableLookup(g[2..], ext);
    assert g[2..] == [(Doom, DoomExtensions)];
    assert TableLookup(g[2..], ext) == if ext in DoomExtensions then Doom else TableLookup(g[3..], ext);
    assert g[3..] == [];
  }

  /**
   * Sound_FilenameToFormat is the table lookup: each format is returned
   * for the extensions listed with it (and, the lists being separate, for
   * no other), and every extension not listed, including a listed one in
   * another letter case, is Unknown.
   */
  lemma FilenameToFormatIsTable(ext: string)
    ensures FilenameToFormat(ext) == TableLookup(ExtensionGroups, ext)
  {
    FirstGroups(ext);
    MiddleGroups(ext);
    LastGroups(ext);
  }
}
