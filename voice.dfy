/**
 * The endpoint-id scanner shared by AIkoVoice.py and VoiceLink.py, and the
 * two ways AIkoVoice.py's callers react to it. The device tool's output
 * arrives already split into lines; the tool itself, the speech SDK and
 * the SSML it is sent are outside the model.
 */
module Voice {
  import opened Wrappers
  import opened Text

  /** `stdout.split("\n")[1:-1]`: the first and the last line are dropped. */
  function DeviceInfo(lines: seq<string>): (info: seq<string>)
    ensures |info| == if |lines| <= 2 then 0 else |lines| - 2
    ensures forall i :: 0 <= i < |info| ==> info[i] == lines[i + 1]
  {
    if |lines| <= 2 then [] else lines[1..|lines| - 1]
  }

  /** `device.lower() in line.lower()`. */
  predicate Mentions(line: string, device: string)
  {
    Contains(Lower(line), Lower(device))
  }

  /** The part of `line` from its first '{' on, or "" when it has none. */
  function FromFirstCurly(line: string): string
  {
    if line == [] then []
    else if line[0] == '{' then line
    else FromFirstCurly(line[1..])
  }

  /**
   * The id is empty exactly when the line has no '{'; otherwise it is the
   * suffix of the line that starts at its first '{'.
   */
  lemma {:induction false} FromFirstCurlyMeaning(line: string)
    ensures FromFirstCurly(line) == [] <==> '{' !in line
    ensures FromFirstCurly(line) != [] ==>
              FromFirstCurly(line)[0] == '{' && |FromFirstCurly(line)| <= |line|
              && FromFirstCurly(line) == line[|line| - |FromFirstCurly(line)|..]
    ensures forall i :: 0 <= i < |line| - |FromFirstCurly(line)| ==> line[i] != '{'
  {
    if line != [] && line[0] != '{' {
      FromFirstCurlyMeaning(line[1..]);
      assert '{' in line <==> '{' in line[1..];
      forall i | 0 <= i < |line| - |FromFirstCurly(line)| ensures line[i] != '{' {
        if i > 0 {
          assert line[i] == line[1..][i - 1];
        }
      }
    }
  }

  /** What the character loop adds for one more character: nothing before the first '{', then everything. */
  lemma {:induction false} FromFirstCurlySnoc(s: string, c: char)
    ensures FromFirstCurly(s + [c])
            == if FromFirstCurly(s) != [] then FromFirstCurly(s) + [c] else if c == '{' then "{" else ""
  {
    if s != [] {
      assert (s + [c])[1..] == s[1..] + [c];
      if s[0] != '{' {
        FromFirstCurlySnoc(s[1..], c);
      }
    } else {
      assert s + [c] == [c];
      assert [c][1..] == [];
    }
  }

  /**
   * The scan from line `i` on: line i matches when line i+1 mentions the
   * device; reaching the last line without a match indexes past the end.
   */
  function Scan(info: seq<string>, device: string, i: nat): Result<string, PyException>
    decreases |info| - i
  {
    if i >= |info| then Success("")
    else if i + 1 >= |info| then Failure(IndexError)
    else if Mentions(info[i + 1], device) then Success(FromFirstCurly(info[i]))
    else Scan(info, device, i + 1)
  }

  /** `get_device_endpoint_id` on the tool's output lines. */
  function EndpointId(output: seq<string>, device: string): Result<string, PyException>
  {
    Scan(DeviceInfo(output), device, 0)
  }

  /** Line `i + 1` is the first kept line after line `start` to mention the device. */
  predicate FirstMention(info: seq<string>, device: string, start: nat, i: nat)
  {
    start <= i < |info| - 1 && Mentions(info[i + 1], device)
    && forall k :: start < k <= i ==> !Mentions(info[k], device)
  }

  lemma {:induction false} ScanMeaning(info: seq<string>, device: string, start: nat)
    requires start < |info|
    ensures Scan(info, device, start).Failure? <==> forall k :: start < k < |info| ==> !Mentions(info[k], device)
    ensures Scan(info, device, start).Failure? ==> Scan(info, device, start).error == IndexError
    ensures forall i: nat :: FirstMention(info, device, start, i) ==> Scan(info, device, start) == Success(FromFirstCurly(info[i]))
    decreases |info| - start
  {
    if start + 1 >= |info| {
      assert Scan(info, device, start) == Failure(IndexError);
    } else if Mentions(info[start + 1], device) {
      assert Scan(info, device, start) == Success(FromFirstCurly(info[start]));
      forall i: nat | FirstMention(info, device, start, i) ensures i == start {
      }
    } else {
      ScanMeaning(info, device, start + 1);
      assert Scan(info, device, start) == Scan(info, device, start + 1);
      forall i: nat | FirstMention(info, device, start, i) ensures FirstMention(info, device, start + 1, i) {
        assert i != start;
      }
    }
  }

  /**
   * The result: an empty list of kept lines gives ""; otherwise IndexError
   * exactly when no kept line after the first mentions the device, and
   * else the id part of the line just before the first line that does.
   */
  lemma EndpointIdMeaning(output: seq<string>, device: string)
    ensures var info := DeviceInfo(output);
            info == [] ==> EndpointId(output, device) == Success("")
    ensures var info := DeviceInfo(output);
            EndpointId(output, device).Failure? <==>
              info != [] && forall k :: 0 < k < |info| ==> !Mentions(info[k], device)
    ensures EndpointId(output, device).Failure? ==> EndpointId(output, device).error == IndexError
    ensures var info := DeviceInfo(output);
            forall i: nat :: FirstMention(info, device, 0, i) ==> EndpointId(output, device) == Success(FromFirstCurly(info[i]))
  {
    if DeviceInfo(output) != [] {
      ScanMeaning(DeviceInfo(output), device, 0);
    }
  }

  /**
   * The inner loop of `get_device_endpoint_id`: copies the characters of a
   * line from the first '{' on, using the `found_curly` flag.
   */
  method CopyFromCurly(letters: string) returns (id: string)
    ensures id == FromFirstCurly(letters)
  {
    var foundCurly := false;
    id := "";
    var k := 0;
    assert letters[..k] == [];
    while k < |letters|
      invariant 0 <= k <= |letters|
      invariant id == FromFirstCurly(letters[..k])
      invariant foundCurly <==> id != []
    {
      var letter := letters[k];
      var prefix := letters[..k];
      FromFirstCurlySnoc(prefix, letter);
      assert letters[..k + 1] == prefix + [letter];
      if letter == '{' {
        foundCurly := true;
      }
      if foundCurly {
        id := id + [letter];
      }
      k := k + 1;
    }
    assert letters[..k] == letters;
  }

  /**
   * `get_device_endpoint_id`: the scan over the kept lines, stopping at the
   * first line whose successor mentions the device.
   */
  method GetDeviceEndpointId(output: seq<string>, device: string) returns (r: Result<string, PyException>)
    ensures r == EndpointId(output, device)
  {
    var info := DeviceInfo(output);
    var line := 0;
    while line < |info|
      invariant 0 <= line <= |info|
      invariant EndpointId(output, device) == Scan(info, device, line)
    {
      if line + 1 >= |info| {
        return Failure(IndexError);
      }
      if Mentions(info[line + 1], device) {
        var id := CopyFromCurly(info[line]);
        return Success(id);
      }
      line := line + 1;
    }
    return Success("");
  }

  /** `Recognizer`'s microphone lookup: any failure of the scan is reported as ValueError. */
  function MicrophoneId(output: seq<string>, microphone: string): (r: Result<string, PyException>)
    ensures r.Failure? <==> EndpointId(output, microphone).Failure?
    ensures r.Failure? ==> r.error == ValueError
    ensures r.Success? ==> r.value == EndpointId(output, microphone).value
  {
    var scanned := EndpointId(output, microphone);
    if scanned.Success? then Success(scanned.value) else Failure(ValueError)
  }

  /** The spoken request `say` builds: the voice, style, rate and text of its SSML. */
  datatype Utterance = Utterance(voice: string, style: string, rate: real, text: string)

  /** `Synthesizer`: the output device chosen at construction and the configured defaults. */
  class Synthesizer {
    const voice: string
    const defaultStyle: string
    const defaultRate: real
    const deviceId: string
    const useDefaultSpeaker: bool

    /**
     * Looks up the speakers' endpoint id; when the scan fails, the default
     * speaker is used with an empty device id.
     */
    constructor (output: seq<string>, speakers: string, voice: string, defaultStyle: string, defaultRate: real)
      ensures this.voice == voice && this.defaultStyle == defaultStyle && this.defaultRate == defaultRate
      ensures EndpointId(output, speakers).Success? ==>
                deviceId == EndpointId(output, speakers).value && !useDefaultSpeaker
      ensures EndpointId(output, speakers).Failure? ==> deviceId == "" && useDefaultSpeaker
    {
      var r := GetDeviceEndpointId(output, speakers);
      if r.Success? {
        deviceId := r.value;
        useDefaultSpeaker := false;
      } else {
        deviceId := "";
        useDefaultSpeaker := true;
      }
      this.voice := voice;
      this.defaultStyle := defaultStyle;
      this.defaultRate := defaultRate;
    }

    /** `say`: a missing rate or style is replaced by the configured default, a given one is kept. */
    method Say(text: string, rate: Option<real>, style: Option<string>) returns (u: Utterance)
      ensures u.voice == voice && u.text == text
      ensures rate.Some? ==> u.rate == rate.value
      ensures rate.None? ==> u.rate == defaultRate
      ensures style.Some? ==> u.style == style.value
      ensures style.None? ==> u.style == defaultStyle
    {
      var r := if rate.Some? then rate.value else defaultRate;
      var s := if style.Some? then style.value else defaultStyle;
      u := Utterance(voice, s, r, text);
    }
  }

  /**
   * A speaker name that appears on no kept line after the first makes the
   * synthesizer fall back to the default speaker, while the recognizer
   * refuses the same name with ValueError.
   */
  method UnknownDeviceFallsBack(output: seq<string>, name: string, voice: string)
    returns (useDefault: bool, id: string, mic: Result<string, PyException>)
    requires |output| > 2
    requires forall i :: 2 <= i < |output| - 1 ==> !Mentions(output[i], name)
    ensures useDefault && id == ""
    ensures mic == Failure(ValueError)
  {
    EndpointIdMeaning(output, name);
    var synthesizer := new Synthesizer(output, name, voice, "neutral", 1.0);
    useDefault := synthesizer.useDefaultSpeaker;
    id := synthesizer.deviceId;
    mic := MicrophoneId(output, name);
  }
}
