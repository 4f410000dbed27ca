/**
 * The pure helpers of the application component (App.tsx): the prompt chosen
 * for each editing option, the name offered for the download, and the
 * splitting of a `data:` URL (RFC 2397, section 3) into its base64 payload
 * and its media type.
 */
module AppHelpers {
  import opened Wrappers
  import opened Strings

  /** A file the user picked: its name and its declared MIME type. */
  datatype File = File(name: string, mimeType: string)

  /** The six edits the user can ask for. */
  datatype ProcessingOption =
    | Blue
    | White
    | MenWhiteShirt
    | WomenWhiteShirt
    | MenVest
    | WomenVest

  // The literals below are split into short pieces so that the verifier can
  // inspect every character of them; their concatenation is the text the
  // application sends.

  /** The clause appended to every prompt: keep the original aspect ratio. */
  const AspectRatioPrompt := "Quan trọng: " + "Giữ nguyên tỷ lệ khung hình " + "của ảnh gốc, " + "không cắt xén hay mở rộng ảnh."

  /** The colour code of the Vietnamese ID-photo blue. */
  const BlueHex := "#0073e6"

  /** The blue ID-photo background that five of the six options ask for. */
  const BlueBackgroundPrompt := "nền xanh dương chuẩn ảnh thẻ " + "Việt Nam (mã màu hex " + BlueHex + ")"

  /** The opening of the two background-only prompts. */
  const ReplaceBackgroundLead := "xóa nền và thay bằng "

  /** The end of the blue-background prompt: keep as much hair detail as possible. */
  const HairClause := ". Giữ lại chi tiết tóc tối đa."

  /** The opening of the four outfit prompts. */
  const ReplaceOutfitLead := "giữ nguyên khuôn mặt và kiểu tóc, " + "thay thế phần còn lại của cơ thể bằng "

  /** The garment each outfit option asks for. */
  function Garment(option: ProcessingOption): string
    requires option != Blue && option != White
  {
    match option
    case MenWhiteShirt => "một chiếc áo sơ mi trắng của nam giới"
    case WomenWhiteShirt => "một chiếc áo sơ mi trắng của phụ nữ"
    case MenVest => "một bộ vest nam màu đen, áo sơ mi trắng và cà vạt đen"
    case WomenVest => "một bộ vest nữ công sở màu đen và áo sơ mi trắng bên trong (không có cà vạt)"
  }

  /** The instruction chosen by the `switch` on the option. */
  function BasePrompt(option: ProcessingOption): string
  {
    match option
    case Blue => ReplaceBackgroundLead + BlueBackgroundPrompt + HairClause
    case White => ReplaceBackgroundLead + "nền màu trắng " + "đồng nhất."
    case _ => OutfitPrompt(Garment(option))
  }

  /** The instruction of an outfit option: keep face and hair, dress the body in `garment`. */
  function OutfitPrompt(garment: string): string
  {
    ReplaceOutfitLead + garment + " trên " + BlueBackgroundPrompt + "."
  }

  /** The progress message shown while the option is processed. */
  function ProcessingMessage(option: ProcessingOption): string
  {
    match option
    case Blue => ProgressLead + "nền xanh..."
    case White => ProgressLead + "nền trắng..."
    case MenWhiteShirt => ProgressLead + "trang phục " + "áo sơ mi nam..."
    case WomenWhiteShirt => ProgressLead + "trang phục " + "áo sơ mi nữ..."
    case MenVest => ProgressLead + "trang phục " + "vest nam..."
    case WomenVest => ProgressLead + "trang phục " + "vest nữ..."
  }

  /** The opening of every progress message ("now replacing"). */
  const ProgressLead := "Đang thay "

  /** Each option announces itself with its own progress message. */
  lemma {:induction false} ProcessingMessageInjective(o1: ProcessingOption, o2: ProcessingOption)
    ensures ProcessingMessage(o1) == ProcessingMessage(o2) <==> o1 == o2
  {
    assert |ProcessingMessage(Blue)| == 21 && |ProcessingMessage(White)| == 22;
    assert |ProcessingMessage(MenWhiteShirt)| == 36 && |ProcessingMessage(WomenWhiteShirt)| == 35;
    assert |ProcessingMessage(MenVest)| == 32 && |ProcessingMessage(WomenVest)| == 31;
  }

  /** The prompt sent: the option's instruction, a space, the aspect-ratio clause. */
  function FinalPrompt(option: ProcessingOption): string
  {
    BasePrompt(option) + " " + AspectRatioPrompt
  }

  /**
   * Every prompt opens with the option's instruction and ends with the
   * aspect-ratio clause.
   */
  lemma {:induction false} FinalPromptShape(option: ProcessingOption)
    ensures StartsWith(FinalPrompt(option), BasePrompt(option))
    ensures EndsWith(FinalPrompt(option), " " + AspectRatioPrompt)
  {
    ConcatEnds(BasePrompt(option), " " + AspectRatioPrompt);
    assert FinalPrompt(option) == BasePrompt(option) + (" " + AspectRatioPrompt);
  }

  /** An outfit instruction is the garment plus 137 characters around it. */
  lemma {:induction false} OutfitPromptLength(garment: string)
    ensures |OutfitPrompt(garment)| == |garment| + 137
  {
  }

  /** The length of each garment, in characters. */
  lemma {:induction false} GarmentLengths()
    ensures |Garment(MenWhiteShirt)| == 37 && |Garment(WomenWhiteShirt)| == 35
    ensures |Garment(MenVest)| == 53 && |Garment(WomenVest)| == 76
  {
  }

  /** The length of each instruction, in characters. */
  lemma {:induction false} BasePromptLengths()
    ensures |BasePrompt(Blue)| == 109 && |BasePrompt(White)| == 45
    ensures |BasePrompt(MenWhiteShirt)| == 174 && |BasePrompt(WomenWhiteShirt)| == 172
    ensures |BasePrompt(MenVest)| == 190 && |BasePrompt(WomenVest)| == 213
  {
    GarmentLengths();
    OutfitPromptLength(Garment(MenWhiteShirt));
    OutfitPromptLength(Garment(WomenWhiteShirt));
    OutfitPromptLength(Garment(MenVest));
    OutfitPromptLength(Garment(WomenVest));
  }

  /** Different options send different prompts. */
  lemma {:induction false} FinalPromptInjective(o1: ProcessingOption, o2: ProcessingOption)
    ensures FinalPrompt(o1) == FinalPrompt(o2) <==> o1 == o2
  {
    BasePromptLengths();
  }

  /** The colour code, and the `#` that opens it, occur in the blue phrase. */
  lemma {:induction false} BlueHexInBluePhrase()
    ensures '#' in BlueBackgroundPrompt
    ensures Contains(BlueBackgroundPrompt, BlueHex)
  {
    assert BlueHex[0] == '#';
    assert OccursAt(BlueHex, BlueHex, 0);
    ContainsInside("nền xanh dương chuẩn ảnh thẻ " + "Việt Nam (mã màu hex ", BlueHex, ")", BlueHex);
  }

  /** The white-background instruction holds no `#`. */
  lemma {:induction false} WhiteBaseLacksHash()
    ensures '#' !in BasePrompt(White)
  {
    assert '#' !in ReplaceBackgroundLead;
    assert '#' !in "nền màu trắng ";
    assert '#' !in "đồng nhất.";
  }

  /** The aspect-ratio clause holds no `#`. */
  lemma {:induction false} AspectRatioLacksHash()
    ensures '#' !in " " + AspectRatioPrompt
  {
    AspectRatioHeadLacksHash();
    assert '#' !in "không cắt xén hay mở rộng ảnh.";
  }

  lemma {:induction false} AspectRatioHeadLacksHash()
    ensures '#' !in "Quan trọng: " + "Giữ nguyên tỷ lệ khung hình " + "của ảnh gốc, "
  {
    assert '#' !in "Quan trọng: ";
    assert '#' !in "Giữ nguyên tỷ lệ khung hình ";
    assert '#' !in "của ảnh gốc, ";
  }

  /** The white-background prompt holds no `#`, hence neither the blue phrase nor its colour. */
  lemma {:induction false} WhitePromptLacksBlue()
    ensures !Contains(BasePrompt(White), BlueBackgroundPrompt)
    ensures !Contains(FinalPrompt(White), BlueHex)
  {
    BlueHexInBluePhrase();
    WhiteBaseLacksHash();
    AspectRatioLacksHash();
    assert BlueHex[0] == '#';
    MissingCharNotContained(BasePrompt(White), BlueBackgroundPrompt, '#');
    MissingCharNotContained(FinalPrompt(White), BlueHex, '#');
  }

  /** A prompt built around the blue phrase holds the phrase and its colour. */
  lemma {:induction false} AroundBluePhrase(before: string, after: string)
    ensures Contains(before + BlueBackgroundPrompt + after, BlueBackgroundPrompt)
    ensures Contains(before + BlueBackgroundPrompt + after + " " + AspectRatioPrompt, BlueHex)
  {
    BlueHexInBluePhrase();
    assert OccursAt(BlueBackgroundPrompt, BlueBackgroundPrompt, 0);
    ContainsInside(before, BlueBackgroundPrompt, after, BlueBackgroundPrompt);
    ContainsInside(before, BlueBackgroundPrompt, after, BlueHex);
    ContainsInPrefix(before + BlueBackgroundPrompt + after, " ", BlueHex);
    ContainsInPrefix(before + BlueBackgroundPrompt + after + " ", AspectRatioPrompt, BlueHex);
  }

  /** The blue-background prompt is built around the blue phrase. */
  lemma {:induction false} BluePromptHasBlue()
    ensures Contains(BasePrompt(Blue), BlueBackgroundPrompt)
    ensures Contains(FinalPrompt(Blue), BlueHex)
  {
    AroundBluePhrase(ReplaceBackgroundLead, HairClause);
  }

  /** Every outfit prompt puts the garment on the blue background. */
  lemma {:induction false} OutfitPromptHasBlue(garment: string)
    ensures Contains(OutfitPrompt(garment), BlueBackgroundPrompt)
    ensures Contains(OutfitPrompt(garment) + " " + AspectRatioPrompt, BlueHex)
  {
    AroundBluePhrase(ReplaceOutfitLead + garment + " trên ", ".");
  }

  /**
   * The blue background phrase, and with it the colour code #0073e6, is part
   * of the prompt of every option except the white background.
   */
  lemma {:induction false} BlueBackgroundExceptWhite(option: ProcessingOption)
    ensures Contains(BasePrompt(option), BlueBackgroundPrompt) <==> option != White
    ensures Contains(FinalPrompt(option), BlueHex) <==> option != White
  {
    if option == White {
      WhitePromptLacksBlue();
    } else if option == Blue {
      BluePromptHasBlue();
    } else {
      OutfitPromptHasBlue(Garment(option));
    }
  }

  // The name offered for the download

  /** The fallback name when nothing was uploaded. */
  const DefaultFilename := "download.png"

  /** `getOutputFilename`: the upload's name without its last extension, then `-processed.png`. */
  function OutputFilename(original: Option<File>): string
  {
    match original
    case None => DefaultFilename
    case Some(file) => Join(DropLast(Split(file.name, '.')), '.') + "-processed.png"
  }

  /**
   * The download name keeps everything before the last dot of the uploaded
   * name; a name without a dot keeps nothing, so it becomes "-processed.png".
   */
  lemma {:induction false} OutputFilenameDropsLastExtension(file: File)
    ensures OutputFilename(Some(file))
         == (if '.' in file.name then file.name[..LastIndexOf(file.name, '.')] else "") + "-processed.png"
  {
    JoinAllButLast(file.name, '.');
  }

  /** Without an upload the download is called "download.png". */
  lemma OutputFilenameWithoutUpload()
    ensures OutputFilename(None) == "download.png"
  {
  }

  /** Only the last extension goes: the stem keeps every earlier dot. */
  lemma {:induction false} OutputFilenameKeepsInnerDots(stem: string, extension: string, mimeType: string)
    requires '.' !in extension
    ensures OutputFilename(Some(File(stem + "." + extension, mimeType))) == stem + "-processed.png"
  {
    var name := stem + "." + extension;
    OutputFilenameDropsLastExtension(File(name, mimeType));
    LastIndexOfBeforeTail(stem, extension, '.');
    assert name == stem + ['.'] + extension;
  }

  /** A name without a dot leaves only the suffix. */
  lemma {:induction false} OutputFilenameWithoutDot(file: File)
    requires '.' !in file.name
    ensures OutputFilename(Some(file)) == "-processed.png"
  {
    OutputFilenameDropsLastExtension(file);
  }

  // Splitting a data URL

  /** The media type assumed when a data URL names none. */
  const DefaultMimeType := "image/png"

  /** What the upscale handler takes from a data URL. */
  datatype DataUrlParts = DataUrlParts(payload: Option<string>, mimeType: string)

  /** The characters a regular-expression `.` does not match. */
  predicate IsLineTerminator(c: char)
  {
    c == '\n' || c == '\r' || c == '\U{2028}' || c == '\U{2029}'
  }

  /**
   * The lazy group `(.*?);` read from the start of `t`: the characters before
   * the first `;`, provided no line terminator comes first.
   */
  function LazyGroup(t: string): (r: Option<string>)
    ensures r.Some? ==> |r.value| < |t| && t[..|r.value|] == r.value && t[|r.value|] == ';'
    ensures r.Some? ==> ';' !in r.value && forall c :: c in r.value ==> !IsLineTerminator(c)
    decreases |t|
  {
    if |t| == 0 then None
    else if t[0] == ';' then Some("")
    else if IsLineTerminator(t[0]) then None
    else
      match LazyGroup(t[1..])
      case None => None
      case Some(g) =>
        assert t[1..][..|g|] == t[1..|g| + 1];
        Some([t[0]] + g)
  }

  /**
   * `s.match(/:(.*?);/)?.[1]`: the group of the leftmost `:` from which the
   * lazy group reaches a `;`.
   */
  function MimeCapture(s: string): Option<string>
    decreases |s|
  {
    if |s| == 0 then None
    else if s[0] == ':' && LazyGroup(s[1..]).Some? then LazyGroup(s[1..])
    else MimeCapture(s[1..])
  }

  /**
   * The upscale handler's reading of the stored result: the second
   * comma-separated field as payload, and the captured media type unless it
   * is missing or empty.
   */
  function ParseDataUrl(url: string): DataUrlParts
  {
    var mime := match MimeCapture(url)
      case Some(m) => if m != "" then m else DefaultMimeType
      case None => DefaultMimeType;
    DataUrlParts(SplitField(url, ',', 1), mime)
  }

  /** The data URL under which a result is stored. */
  function PngDataUrl(base64: string): string
  {
    "data:" + DefaultMimeType + ";base64," + base64
  }

  /** A group without `;` or line terminator, followed by `;`, is read back whole. */
  lemma {:induction false} LazyGroupReadsUpToSemicolon(m: string, rest: string)
    requires ';' !in m && forall c :: c in m ==> !IsLineTerminator(c)
    ensures LazyGroup(m + [';'] + rest) == Some(m)
    decreases |m|
  {
    var t := m + [';'] + rest;
    if |m| > 0 {
      assert t[0] == m[0];
      assert t[1..] == m[1..] + [';'] + rest;
      LazyGroupReadsUpToSemicolon(m[1..], rest);
      assert [m[0]] + m[1..] == m;
    }
  }

  /** The capture starts at the first colon when a group can be read from there. */
  lemma {:induction false} MimeCaptureAtFirstColon(before: string, after: string)
    requires ':' !in before && LazyGroup(after).Some?
    ensures MimeCapture(before + [':'] + after) == LazyGroup(after)
    decreases |before|
  {
    var s := before + [':'] + after;
    if |before| == 0 {
      assert s[0] == ':' && s[1..] == after;
    } else {
      assert s[0] == before[0];
      assert s[1..] == before[1..] + [':'] + after;
      MimeCaptureAtFirstColon(before[1..], after);
    }
  }

  /**
   * A base64 data URL whose media type holds no `,`, `;` or line terminator
   * is split into that media type and the payload up to its first comma.
   */
  lemma {:induction false} ParseDataUrlFields(mime: string, payload: string)
    requires mime != ""
    requires ',' !in mime && ';' !in mime && forall c :: c in mime ==> !IsLineTerminator(c)
    ensures ParseDataUrl("data:" + mime + ";base64," + payload) == DataUrlParts(Some(Split(payload, ',')[0]), mime)
  {
    var url := "data:" + mime + ";base64," + payload;
    var rest := "base64," + payload;
    assert url == "data" + [':'] + (mime + [';'] + rest);
    LazyGroupReadsUpToSemicolon(mime, rest);
    MimeCaptureAtFirstColon("data", mime + [';'] + rest);
    var head := "data:" + mime + ";base64";
    assert url == head + [','] + payload;
    assert ',' !in head;
    SplitAtFirst(head, payload, ',');
  }

  /**
   * Splitting a well-formed base64 data URL gives back the media type and the
   * payload it was built from.
   */
  lemma {:induction false} ParseDataUrlRoundTrip(mime: string, payload: string)
    requires mime != ""
    requires ',' !in mime && ';' !in mime && forall c :: c in mime ==> !IsLineTerminator(c)
    requires ',' !in payload
    ensures ParseDataUrl("data:" + mime + ";base64," + payload) == DataUrlParts(Some(payload), mime)
  {
    ParseDataUrlFields(mime, payload);
    var parts := Split(payload, ',');
    assert |parts| == 1 && Join(parts, ',') == parts[0];
  }

  /**
   * The stored result of an edit is read back as a PNG whose payload is the
   * returned data up to its first comma, which is all of it for base64 data.
   */
  lemma {:induction false} ReparsePngDataUrl(base64: string)
    ensures ParseDataUrl(PngDataUrl(base64)).mimeType == "image/png"
    ensures ParseDataUrl(PngDataUrl(base64)).payload == Some(Split(base64, ',')[0])
    ensures ',' !in base64 ==> ParseDataUrl(PngDataUrl(base64)).payload == Some(base64)
  {
    assert forall c :: c in DefaultMimeType ==> !IsLineTerminator(c);
    ParseDataUrlFields(DefaultMimeType, base64);
    if ',' !in base64 {
      ParseDataUrlRoundTrip(DefaultMimeType, base64);
    }
  }
}
