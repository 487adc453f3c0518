/** `create_id_card` (app.py:9-103): composes the student ID card as a
    display list on a fixed 650×400 canvas. Text widths come from the two
    typefaces as functions from strings to integers; whether each uploaded
    image decodes is an input. */
module IdCard {
  import opened PyText
  import opened Wrap
  import opened Display

  const Width := 650
  const Height := 400

  /** Title lines may measure up to this many units (app.py:38). */
  const MaxTitleWidth := Width - 100

  const TitleTop := 30
  const TitlePitch := 40
  const DetailX := 50
  const DetailGap := 28

  const LogoWidth := 500
  const LogoHeight := 300
  const LogoX := (Width - LogoWidth) / 2
  const LogoY := (Height - LogoHeight) / 2
  const OverlayAlpha := 220

  const PhotoX := 500
  const PhotoY := 100
  const PhotoWidth := 120
  const PhotoHeight := 140

  const SignatureText := "Authorized Signature"
  const SignatureMargin := 30
  const SignatureY := Height - 70
  const ContactY := Height - 40

  const InvalidLogo := "Invalid logo image."
  const InvalidPhoto := "Invalid student photo."

  /** An uploaded image as the composer sees it: nothing uploaded (`None`,
      which `if photo:` and `if logo:` skip), an upload the imaging library
      cannot open, or a decoded image. */
  datatype Upload = NoFile | Undecodable | Decoded(image: ImageRef)

  /** The text and colour arguments of `create_id_card`, in its parameter
      order; the two uploads, `photo` and `logo`, are passed beside it. */
  datatype CardRequest = CardRequest(
    name: string, fatherName: string, studentId: string, rollNo: string,
    studentClass: string, shift: string,
    borderColor: Color, textColor: Color,
    schoolName: string, schoolContact: string,
    issueDate: string, expiryDate: string)

  /** `(width - w) // 2`: the left edge that centres a text of width `w`;
      the two margins differ by at most one unit. */
  function Centre(w: int): (x: int)
    ensures 0 <= (Width - x - w) - x <= 1
  {
    (Width - w) / 2
  }

  /** The logo, stretched over the middle of the card and then veiled by an
      almost opaque white block of the same size (app.py:28-35). */
  function LogoCommands(logo: Upload): seq<Command> {
    match logo
    case Decoded(image) =>
      [PasteImage(image, LogoX, LogoY, LogoWidth, LogoHeight, OwnAlpha),
       PasteFill(LogoX, LogoY, LogoWidth, LogoHeight, 255, 255, 255, OverlayAlpha)]
    case _ => []
  }

  /** The title lines from height `y` down, one pitch apart (app.py:50-54). */
  function TitleCommands(lines: seq<string>, y: int, titleWidth: string -> int, color: Color): (cmds: seq<Command>)
    ensures |cmds| == |lines|
    decreases |lines|
  {
    if lines == [] then []
    else [DrawText(Centre(titleWidth(lines[0])), y, lines[0], color, TitleFont)]
         + TitleCommands(lines[1..], y + TitlePitch, titleWidth, color)
  }

  /** Title line `i` is drawn centred, `i` pitches below the first. */
  lemma {:induction false} TitleCommandsAt(lines: seq<string>, y: int, titleWidth: string -> int, color: Color)
    ensures var cmds := TitleCommands(lines, y, titleWidth, color);
      forall i :: 0 <= i < |lines| ==>
        cmds[i] == DrawText(Centre(titleWidth(lines[i])), y + TitlePitch * i, lines[i], color, TitleFont)
    decreases |lines|
  {
    if lines != [] {
      TitleCommandsAt(lines[1..], y + TitlePitch, titleWidth, color);
      var cmds := TitleCommands(lines, y, titleWidth, color);
      var rest := TitleCommands(lines[1..], y + TitlePitch, titleWidth, color);
      forall i | 1 <= i < |lines|
        ensures cmds[i] == DrawText(Centre(titleWidth(lines[i])), y + TitlePitch * i, lines[i], color, TitleFont)
      {
        assert cmds[i] == rest[i - 1] && lines[1..][i - 1] == lines[i];
      }
    }
  }

  /** One more title line adds one command at the end, one pitch lower. */
  lemma {:induction false} TitleCommandsSnoc(lines: seq<string>, line: string, y: int, titleWidth: string -> int, color: Color)
    ensures TitleCommands(lines + [line], y, titleWidth, color) ==
      TitleCommands(lines, y, titleWidth, color)
      + [DrawText(Centre(titleWidth(line)), y + TitlePitch * |lines|, line, color, TitleFont)]
    decreases |lines|
  {
    if lines == [] {
      assert [] + [line] == [line];
    } else {
      assert (lines + [line])[0] == lines[0] && (lines + [line])[1..] == lines[1..] + [line];
      TitleCommandsSnoc(lines[1..], line, y + TitlePitch, titleWidth, color);
    }
  }

  /** `y_text` after the title block: one pitch below the last title line. */
  function TitleBottom(lines: seq<string>): int {
    TitleTop + TitlePitch * |lines|
  }

  /** The outer border (app.py:57). */
  function BorderCommand(color: Color): Command {
    RoundedRectangle(10, 10, Width - 10, Height - 10, color, 5, 20)
  }

  /** The six labelled entries that every card has (app.py:62-69). */
  function RequiredDetails(req: CardRequest): seq<string> {
    ["Name: " + req.name, "Father Name: " + req.fatherName, "Student ID: " + req.studentId,
     "Roll No: " + req.rollNo, "Class: " + req.studentClass, "Shift: " + req.shift]
  }

  /** `student_details` once the dates are appended (app.py:62-74). */
  function StudentDetails(req: CardRequest): seq<string> {
    RequiredDetails(req)
    + (if req.issueDate != "" then ["Issue Date: " + req.issueDate] else [])
    + (if req.expiryDate != "" then ["Expiry Date: " + req.expiryDate] else [])
  }

  /** The six required entries come first, in order; each date is there
      exactly when it is not empty, the issue date before the expiry date,
      and a present expiry date is the last entry. */
  lemma StudentDetailsShape(req: CardRequest)
    ensures var d := StudentDetails(req);
      && |d| == 6 + (if req.issueDate != "" then 1 else 0) + (if req.expiryDate != "" then 1 else 0)
      && d[..6] == RequiredDetails(req)
      && (req.issueDate != "" ==> d[6] == "Issue Date: " + req.issueDate)
      && (req.expiryDate != "" ==> d[|d| - 1] == "Expiry Date: " + req.expiryDate)
  {
    var dates := (if req.issueDate != "" then ["Issue Date: " + req.issueDate] else [])
      + (if req.expiryDate != "" then ["Expiry Date: " + req.expiryDate] else []);
    assert StudentDetails(req) == RequiredDetails(req) + dates;
  }

  /** The detail lines from height `y` down, one gap apart (app.py:76-78). */
  function DetailCommands(details: seq<string>, y: int, color: Color): (cmds: seq<Command>)
    ensures |cmds| == |details|
    decreases |details|
  {
    if details == [] then []
    else [DrawText(DetailX, y, details[0], color, TextFont)]
         + DetailCommands(details[1..], y + DetailGap, color)
  }

  /** Detail `i` is drawn at the left margin, `i` gaps below the first. */
  lemma {:induction false} DetailCommandsAt(details: seq<string>, y: int, color: Color)
    ensures var cmds := DetailCommands(details, y, color);
      forall i :: 0 <= i < |details| ==>
        cmds[i] == DrawText(DetailX, y + DetailGap * i, details[i], color, TextFont)
    decreases |details|
  {
    if details != [] {
      DetailCommandsAt(details[1..], y + DetailGap, color);
      var cmds := DetailCommands(details, y, color);
      var rest := DetailCommands(details[1..], y + DetailGap, color);
      forall i | 1 <= i < |details|
        ensures cmds[i] == DrawText(DetailX, y + DetailGap * i, details[i], color, TextFont)
      {
        assert cmds[i] == rest[i - 1] && details[1..][i - 1] == details[i];
      }
    }
  }

  /** One more detail adds one command at the end, one gap lower. */
  lemma {:induction false} DetailCommandsSnoc(details: seq<string>, detail: string, y: int, color: Color)
    ensures DetailCommands(details + [detail], y, color) ==
      DetailCommands(details, y, color) + [DrawText(DetailX, y + DetailGap * |details|, detail, color, TextFont)]
    decreases |details|
  {
    if details == [] {
      assert [] + [detail] == [detail];
    } else {
      assert (details + [detail])[0] == details[0] && (details + [detail])[1..] == details[1..] + [detail];
      DetailCommandsSnoc(details[1..], detail, y + DetailGap, color);
    }
  }

  /** The photo through an elliptical mask, and its frame (app.py:81-90). */
  function PhotoCommands(photo: Upload, color: Color): seq<Command> {
    match photo
    case Decoded(image) =>
      [PasteImage(image, PhotoX, PhotoY, PhotoWidth, PhotoHeight, Ellipse),
       RoundedRectangle(PhotoX, PhotoY, PhotoX + PhotoWidth, PhotoY + PhotoHeight, color, 4, 12)]
    case _ => []
  }

  /** The signature label, right-aligned (app.py:93-95). */
  function SignatureCommand(textWidth: string -> int, color: Color): (c: Command)
    ensures c.DrawText? && c.text == SignatureText && c.y == SignatureY
    ensures c.x + textWidth(SignatureText) + SignatureMargin == Width
  {
    DrawText(Width - textWidth(SignatureText) - SignatureMargin, SignatureY, SignatureText, color, TextFont)
  }

  /** The contact line, centred, when there is a contact (app.py:98-101). */
  function ContactCommands(contact: string, textWidth: string -> int, color: Color): seq<Command> {
    if contact == "" then []
    else
      var text := "Contact: " + contact;
      [DrawText(Centre(textWidth(text)), ContactY, text, color, TextFont)]
  }

  /** The detail lines drawn from `yText + 10` down (app.py:60-78). */
  function DetailBlock(req: CardRequest, yText: int): seq<Command> {
    DetailCommands(StudentDetails(req), yText + 10, req.textColor)
  }

  /** The signature and, when there is a contact, the contact line
      (app.py:92-101). */
  function FooterCommands(req: CardRequest, textWidth: string -> int): seq<Command> {
    [SignatureCommand(textWidth, req.textColor)] + ContactCommands(req.schoolContact, textWidth, req.textColor)
  }

  /** What follows the title block that ends at `yText`: the border, the
      details, the photo, the signature and the contact line. */
  function BodyCommands(req: CardRequest, photo: Upload, yText: int, textWidth: string -> int): seq<Command> {
    [BorderCommand(req.borderColor)]
    + DetailBlock(req, yText)
    + PhotoCommands(photo, req.borderColor)
    + FooterCommands(req, textWidth)
  }

  /** Everything `create_id_card` draws once the school name is wrapped into
      `lines`, in the order it draws it. */
  function CardLayout(req: CardRequest, photo: Upload, logo: Upload, lines: seq<string>,
                      titleWidth: string -> int, textWidth: string -> int): seq<Command> {
    LogoCommands(logo)
    + TitleCommands(lines, TitleTop, titleWidth, req.borderColor)
    + BodyCommands(req, photo, TitleBottom(lines), textWidth)
  }

  /** Everything `create_id_card` draws, in the order it draws it. */
  function CardCommands(req: CardRequest, photo: Upload, logo: Upload,
                        titleWidth: string -> int, textWidth: string -> int): seq<Command> {
    CardLayout(req, photo, logo, SchoolLines(req.schoolName, titleWidth, MaxTitleWidth), titleWidth, textWidth)
  }

  /** The `st.warning` messages, in order: one for an upload that does not
      decode, none otherwise. */
  function Warnings(photo: Upload, logo: Upload): (r: seq<string>)
    ensures (InvalidLogo in r) <==> logo.Undecodable?
    ensures (InvalidPhoto in r) <==> photo.Undecodable?
    ensures !logo.Undecodable? && !photo.Undecodable? ==> r == []
  {
    (if logo.Undecodable? then [InvalidLogo] else [])
    + (if photo.Undecodable? then [InvalidPhoto] else [])
  }

  /** The logo step (app.py:28-35): paste and veil a decoded logo, warn
      about one that does not decode. */
  method DrawLogo(background: Canvas, logo: Upload) returns (warnings: seq<string>)
    modifies background
    ensures background.commands == old(background.commands) + LogoCommands(logo)
    ensures warnings == if logo.Undecodable? then [InvalidLogo] else []
  {
    warnings := [];
    match logo {
      case Decoded(image) =>
        background.Paste(image, LogoX, LogoY, LogoWidth, LogoHeight, OwnAlpha);
        background.PasteSolid(LogoX, LogoY, LogoWidth, LogoHeight, 255, 255, 255, OverlayAlpha);
      case Undecodable =>
        warnings := [InvalidLogo];
      case NoFile =>
    }
  }

  /** The title loop (app.py:50-54); returns `y_text` after it. */
  method DrawTitle(background: Canvas, schoolLines: seq<string>, titleWidth: string -> int, color: Color)
    returns (yText: int)
    modifies background
    ensures background.commands == old(background.commands) + TitleCommands(schoolLines, TitleTop, titleWidth, color)
    ensures yText == TitleBottom(schoolLines)
  {
    yText := TitleTop;
    for i := 0 to |schoolLines|
      invariant yText == TitleTop + TitlePitch * i
      invariant background.commands == old(background.commands) + TitleCommands(schoolLines[..i], TitleTop, titleWidth, color)
    {
      var lineWidth := titleWidth(schoolLines[i]);
      background.Text((Width - lineWidth) / 2, yText, schoolLines[i], color, TitleFont);
      yText := yText + TitlePitch;
      assert schoolLines[..i + 1] == schoolLines[..i] + [schoolLines[i]];
      TitleCommandsSnoc(schoolLines[..i], schoolLines[i], TitleTop, titleWidth, color);
    }
    assert schoolLines[..|schoolLines|] == schoolLines;
  }

  /** `student_details` (app.py:62-74): the six labelled entries, then each
      date that is not empty. */
  method BuildDetails(req: CardRequest) returns (details: seq<string>)
    ensures details == StudentDetails(req)
  {
    details := ["Name: " + req.name, "Father Name: " + req.fatherName, "Student ID: " + req.studentId,
                "Roll No: " + req.rollNo, "Class: " + req.studentClass, "Shift: " + req.shift];
    if req.issueDate != "" {
      details := details + ["Issue Date: " + req.issueDate];
    }
    if req.expiryDate != "" {
      details := details + ["Expiry Date: " + req.expiryDate];
    }
  }

  /** The detail loop (app.py:60-61, 76-78), from `y_text + 10` down. */
  method DrawDetails(background: Canvas, details: seq<string>, yText: int, color: Color)
    modifies background
    ensures background.commands == old(background.commands) + DetailCommands(details, yText + 10, color)
  {
    var yPos := yText + 10;
    for i := 0 to |details|
      invariant yPos == yText + 10 + DetailGap * i
      invariant background.commands == old(background.commands) + DetailCommands(details[..i], yText + 10, color)
    {
      background.Text(DetailX, yPos, details[i], color, TextFont);
      yPos := yPos + DetailGap;
      assert details[..i + 1] == details[..i] + [details[i]];
      DetailCommandsSnoc(details[..i], details[i], yText + 10, color);
    }
    assert details[..|details|] == details;
  }

  /** The photo step (app.py:81-90): paste a decoded photo through the
      ellipse and frame it, warn about one that does not decode. */
  method DrawPhoto(background: Canvas, photo: Upload, color: Color) returns (warnings: seq<string>)
    modifies background
    ensures background.commands == old(background.commands) + PhotoCommands(photo, color)
    ensures warnings == if photo.Undecodable? then [InvalidPhoto] else []
  {
    warnings := [];
    match photo {
      case Decoded(image) =>
        background.Paste(image, PhotoX, PhotoY, PhotoWidth, PhotoHeight, Ellipse);
        background.RoundedRect(PhotoX, PhotoY, PhotoX + PhotoWidth, PhotoY + PhotoHeight, color, 4, 12);
      case Undecodable =>
        warnings := [InvalidPhoto];
      case NoFile =>
    }
  }

  /** The signature and contact lines (app.py:92-101). */
  method DrawFooter(background: Canvas, req: CardRequest, textWidth: string -> int)
    modifies background
    ensures background.commands == old(background.commands) + FooterCommands(req, textWidth)
  {
    var authWidth := textWidth(SignatureText);
    background.Text(Width - authWidth - SignatureMargin, Height - 70, SignatureText, req.textColor, TextFont);
    if req.schoolContact != "" {
      var contactText := "Contact: " + req.schoolContact;
      var contactWidth := textWidth(contactText);
      background.Text((Width - contactWidth) / 2, Height - 40, contactText, req.textColor, TextFont);
    }
  }

  /** Border, details, photo and footer (app.py:56-101), drawn below a
      title block that ends at `yText`. */
  method DrawBody(background: Canvas, req: CardRequest, photo: Upload, yText: int, textWidth: string -> int)
    returns (photoWarnings: seq<string>)
    modifies background
    ensures background.commands == old(background.commands) + BodyCommands(req, photo, yText, textWidth)
    ensures photoWarnings == if photo.Undecodable? then [InvalidPhoto] else []
  {
    ghost var start := background.commands;
    background.RoundedRect(10, 10, Width - 10, Height - 10, req.borderColor, 5, 20);
    var details := BuildDetails(req);
    DrawDetails(background, details, yText, req.textColor);
    photoWarnings := DrawPhoto(background, photo, req.borderColor);
    DrawFooter(background, req, textWidth);
    AppendFour(start, [BorderCommand(req.borderColor)], DetailBlock(req, yText),
               PhotoCommands(photo, req.borderColor), FooterCommands(req, textWidth));
  }

  /** Everything after the wrap (app.py:27-35, 50-101), for title lines
      already wrapped. */
  method Compose(background: Canvas, req: CardRequest, photo: Upload, logo: Upload, schoolLines: seq<string>,
                 titleWidth: string -> int, textWidth: string -> int)
    returns (warnings: seq<string>)
    modifies background
    ensures background.commands == old(background.commands) + CardLayout(req, photo, logo, schoolLines, titleWidth, textWidth)
    ensures warnings == Warnings(photo, logo)
  {
    ghost var start := background.commands;
    var logoWarnings := DrawLogo(background, logo);
    var yText := DrawTitle(background, schoolLines, titleWidth, req.borderColor);
    var photoWarnings := DrawBody(background, req, photo, yText, textWidth);
    warnings := logoWarnings + photoWarnings;
    AppendThree(start, LogoCommands(logo), TitleCommands(schoolLines, TitleTop, titleWidth, req.borderColor),
                BodyCommands(req, photo, yText, textWidth));
  }

  /** `create_id_card`: a new white 650×400 canvas with every command of
      the card on it, and the warnings for uploads that do not decode. It
      always returns, whatever the uploads hold. */
  method CreateIdCard(req: CardRequest, photo: Upload, logo: Upload, titleWidth: string -> int, textWidth: string -> int)
    returns (background: Canvas, warnings: seq<string>)
    ensures fresh(background)
    ensures background.width == Width && background.height == Height && background.background == "white"
    ensures background.commands == CardCommands(req, photo, logo, titleWidth, textWidth)
    ensures warnings == Warnings(photo, logo)
  {
    background := new Canvas(Width, Height, "white");
    var schoolLines := WrapSchoolName(req.schoolName, titleWidth, MaxTitleWidth);
    warnings := Compose(background, req, photo, logo, schoolLines, titleWidth, textWidth);
  }

  /** Where the details start in the display list: after the logo, the
      title lines and the border. */
  function DetailStart(logo: Upload, lines: seq<string>): nat {
    |LogoCommands(logo)| + |lines| + 1
  }

  /** Where the signature sits: after the details and the photo. */
  function SignatureIndex(req: CardRequest, photo: Upload, logo: Upload, lines: seq<string>): nat {
    DetailStart(logo, lines) + |StudentDetails(req)| + |PhotoCommands(photo, req.borderColor)|
  }

  /** The part of the card before the details: logo, title lines, border. */
  function HeadCommands(req: CardRequest, logo: Upload, lines: seq<string>, titleWidth: string -> int): seq<Command> {
    LogoCommands(logo) + TitleCommands(lines, TitleTop, titleWidth, req.borderColor) + [BorderCommand(req.borderColor)]
  }

  /** The card is the head, the details, the photo and the footer, in that
      order. */
  lemma CardLayoutParts(req: CardRequest, photo: Upload, logo: Upload, lines: seq<string>,
                        titleWidth: string -> int, textWidth: string -> int)
    ensures CardLayout(req, photo, logo, lines, titleWidth, textWidth) ==
      HeadCommands(req, logo, lines, titleWidth) + DetailBlock(req, TitleBottom(lines))
      + (PhotoCommands(photo, req.borderColor) + FooterCommands(req, textWidth))
  {
    Regroup(LogoCommands(logo), TitleCommands(lines, TitleTop, titleWidth, req.borderColor), [BorderCommand(req.borderColor)],
            DetailBlock(req, TitleBottom(lines)), PhotoCommands(photo, req.borderColor), FooterCommands(req, textWidth));
  }

  /** The card with the photo between the details and the footer. */
  lemma CardLayoutAroundPhoto(req: CardRequest, photo: Upload, logo: Upload, lines: seq<string>,
                              titleWidth: string -> int, textWidth: string -> int)
    ensures CardLayout(req, photo, logo, lines, titleWidth, textWidth) ==
      (HeadCommands(req, logo, lines, titleWidth) + DetailBlock(req, TitleBottom(lines)))
      + PhotoCommands(photo, req.borderColor) + FooterCommands(req, textWidth)
  {
    Regroup(LogoCommands(logo), TitleCommands(lines, TitleTop, titleWidth, req.borderColor), [BorderCommand(req.borderColor)],
            DetailBlock(req, TitleBottom(lines)), PhotoCommands(photo, req.borderColor), FooterCommands(req, textWidth));
  }

  /** The card begins with the logo commands. */
  lemma LogoFirst(req: CardRequest, photo: Upload, logo: Upload, lines: seq<string>,
                  titleWidth: string -> int, textWidth: string -> int)
    ensures var cmds := CardLayout(req, photo, logo, lines, titleWidth, textWidth);
      cmds[..|LogoCommands(logo)|] == LogoCommands(logo)
  {
    SplitThree(LogoCommands(logo), TitleCommands(lines, TitleTop, titleWidth, req.borderColor),
               BodyCommands(req, photo, TitleBottom(lines), textWidth));
  }

  /** Title line `i` follows the logo, centred, `i` pitches below the top. */
  lemma TitleLinesAt(req: CardRequest, photo: Upload, logo: Upload, lines: seq<string>,
                     titleWidth: string -> int, textWidth: string -> int)
    ensures var cmds := CardLayout(req, photo, logo, lines, titleWidth, textWidth);
      var l := |LogoCommands(logo)|;
      l + |lines| <= |cmds| &&
      forall i :: 0 <= i < |lines| ==>
        cmds[l + i] == DrawText(Centre(titleWidth(lines[i])), TitleTop + TitlePitch * i, lines[i], req.borderColor, TitleFont)
  {
    TitleCommandsAt(lines, TitleTop, titleWidth, req.borderColor);
    SplitThree(LogoCommands(logo), TitleCommands(lines, TitleTop, titleWidth, req.borderColor),
               BodyCommands(req, photo, TitleBottom(lines), textWidth));
  }

  /** The border comes right after the last title line. */
  lemma BorderAfterTitle(req: CardRequest, photo: Upload, logo: Upload, lines: seq<string>,
                         titleWidth: string -> int, textWidth: string -> int)
    ensures var cmds := CardLayout(req, photo, logo, lines, titleWidth, textWidth);
      var l := |LogoCommands(logo)|;
      l + |lines| < |cmds| && cmds[l + |lines|] == BorderCommand(req.borderColor)
  {
    var body := BodyCommands(req, photo, TitleBottom(lines), textWidth);
    assert body[0] == BorderCommand(req.borderColor);
    SplitThree(LogoCommands(logo), TitleCommands(lines, TitleTop, titleWidth, req.borderColor), body);
  }

  /** The card begins with the logo (when it decodes); title line `i` comes
      next, centred, `i` pitches below the top line; then the border. */
  lemma TitleLayout(req: CardRequest, photo: Upload, logo: Upload, lines: seq<string>,
                    titleWidth: string -> int, textWidth: string -> int)
    ensures var cmds := CardLayout(req, photo, logo, lines, titleWidth, textWidth);
      var l := |LogoCommands(logo)|;
      && l + |lines| < |cmds|
      && cmds[..l] == LogoCommands(logo)
      && (forall i :: 0 <= i < |lines| ==>
            cmds[l + i] == DrawText(Centre(titleWidth(lines[i])), TitleTop + TitlePitch * i, lines[i], req.borderColor, TitleFont))
      && cmds[l + |lines|] == BorderCommand(req.borderColor)
  {
    LogoFirst(req, photo, logo, lines, titleWidth, textWidth);
    TitleLinesAt(req, photo, logo, lines, titleWidth, textWidth);
    BorderAfterTitle(req, photo, logo, lines, titleWidth, textWidth);
  }

  /** Detail `i` is drawn at the left margin, `i` gaps below the first,
      which sits 10 below the title block: consecutive details are exactly
      one gap apart, so a missing date leaves no hole. */
  lemma DetailsLayout(req: CardRequest, photo: Upload, logo: Upload, lines: seq<string>,
                      titleWidth: string -> int, textWidth: string -> int)
    ensures var cmds := CardLayout(req, photo, logo, lines, titleWidth, textWidth);
      var d := StudentDetails(req);
      var s := DetailStart(logo, lines);
      && s + |d| <= |cmds|
      && forall i :: 0 <= i < |d| ==>
           cmds[s + i] == DrawText(DetailX, TitleBottom(lines) + 10 + DetailGap * i, d[i], req.textColor, TextFont)
  {
    var head := HeadCommands(req, logo, lines, titleWidth);
    var tail := PhotoCommands(photo, req.borderColor) + FooterCommands(req, textWidth);
    CardLayoutParts(req, photo, logo, lines, titleWidth, textWidth);
    DetailsWithin(head, StudentDetails(req), tail, TitleBottom(lines) + 10, req.textColor);
  }

  /** Detail commands placed after `head` keep their positions, shifted by
      the length of `head`. */
  lemma DetailsWithin(head: seq<Command>, details: seq<string>, tail: seq<Command>, y: int, color: Color)
    ensures var cmds := head + DetailCommands(details, y, color) + tail;
      && |head| + |details| <= |cmds|
      && forall i :: 0 <= i < |details| ==>
           cmds[|head| + i] == DrawText(DetailX, y + DetailGap * i, details[i], color, TextFont)
  {
    DetailCommandsAt(details, y, color);
    SplitThree(head, DetailCommands(details, y, color), tail);
  }

  /** The card is as long as its parts: the signature, then the contact
      line when there is a contact. */
  lemma CardLength(req: CardRequest, photo: Upload, logo: Upload, lines: seq<string>,
                   titleWidth: string -> int, textWidth: string -> int)
    ensures |CardLayout(req, photo, logo, lines, titleWidth, textWidth)| ==
      SignatureIndex(req, photo, logo, lines) + 1 + (if req.schoolContact == "" then 0 else 1)
  {
    CardLayoutAroundPhoto(req, photo, logo, lines, titleWidth, textWidth);
  }

  /** The photo commands sit between the details and the signature. */
  lemma PhotoAfterDetails(req: CardRequest, photo: Upload, logo: Upload, lines: seq<string>,
                          titleWidth: string -> int, textWidth: string -> int)
    ensures var cmds := CardLayout(req, photo, logo, lines, titleWidth, textWidth);
      var k := SignatureIndex(req, photo, logo, lines);
      k <= |cmds| && cmds[DetailStart(logo, lines) + |StudentDetails(req)|..k] == PhotoCommands(photo, req.borderColor)
  {
    CardLayoutAroundPhoto(req, photo, logo, lines, titleWidth, textWidth);
    SplitThree(HeadCommands(req, logo, lines, titleWidth) + DetailBlock(req, TitleBottom(lines)),
               PhotoCommands(photo, req.borderColor), FooterCommands(req, textWidth));
  }

  /** The signature comes right after the photo. */
  lemma SignatureAfterPhoto(req: CardRequest, photo: Upload, logo: Upload, lines: seq<string>,
                            titleWidth: string -> int, textWidth: string -> int)
    ensures var cmds := CardLayout(req, photo, logo, lines, titleWidth, textWidth);
      var k := SignatureIndex(req, photo, logo, lines);
      k < |cmds| && cmds[k] == SignatureCommand(textWidth, req.textColor)
  {
    var foot := FooterCommands(req, textWidth);
    CardLayoutAroundPhoto(req, photo, logo, lines, titleWidth, textWidth);
    SplitThree(HeadCommands(req, logo, lines, titleWidth) + DetailBlock(req, TitleBottom(lines)),
               PhotoCommands(photo, req.borderColor), foot);
    assert foot[0] == SignatureCommand(textWidth, req.textColor);
  }

  /** After the details come the photo (when it decodes) and the
      right-aligned signature; the card ends with the contact line when
      there is a contact, else with the signature. */
  lemma FooterLayout(req: CardRequest, photo: Upload, logo: Upload, lines: seq<string>,
                     titleWidth: string -> int, textWidth: string -> int)
    ensures var cmds := CardLayout(req, photo, logo, lines, titleWidth, textWidth);
      var k := SignatureIndex(req, photo, logo, lines);
      && |cmds| == k + 1 + (if req.schoolContact == "" then 0 else 1)
      && cmds[DetailStart(logo, lines) + |StudentDetails(req)|..k] == PhotoCommands(photo, req.borderColor)
      && cmds[k] == SignatureCommand(textWidth, req.textColor)
  {
    CardLength(req, photo, logo, lines, titleWidth, textWidth);
    PhotoAfterDetails(req, photo, logo, lines, titleWidth, textWidth);
    SignatureAfterPhoto(req, photo, logo, lines, titleWidth, textWidth);
  }

  /** The last command is the centred contact line exactly when the contact
      is not empty. */
  lemma ContactLast(req: CardRequest, photo: Upload, logo: Upload, lines: seq<string>,
                    titleWidth: string -> int, textWidth: string -> int)
    ensures var cmds := CardLayout(req, photo, logo, lines, titleWidth, textWidth);
      var text := "Contact: " + req.schoolContact;
      (cmds[|cmds| - 1] == DrawText(Centre(textWidth(text)), ContactY, text, req.textColor, TextFont))
      <==> req.schoolContact != ""
  {
    var cmds := CardLayout(req, photo, logo, lines, titleWidth, textWidth);
    var head := HeadCommands(req, logo, lines, titleWidth) + DetailBlock(req, TitleBottom(lines)) + PhotoCommands(photo, req.borderColor);
    var foot := FooterCommands(req, textWidth);
    CardLayoutAroundPhoto(req, photo, logo, lines, titleWidth, textWidth);
    assert cmds[|cmds| - 1] == foot[|foot| - 1];
    assert SignatureCommand(textWidth, req.textColor).y == SignatureY;
  }

  /** The commands of the logo step. */
  predicate IsLogoCommand(c: Command) {
    (c.PasteImage? && c.mask == OwnAlpha) || c.PasteFill?
  }

  /** The commands of the photo step. */
  predicate IsPhotoCommand(c: Command) {
    (c.PasteImage? && c.mask == Ellipse) || (c.RoundedRectangle? && c.x0 == PhotoX && c.y0 == PhotoY)
  }

  /** Title lines are text, never an image or a frame. */
  lemma TitleNotAssets(lines: seq<string>, titleWidth: string -> int, color: Color)
    ensures NoneDropped(TitleCommands(lines, TitleTop, titleWidth, color), IsLogoCommand)
    ensures NoneDropped(TitleCommands(lines, TitleTop, titleWidth, color), IsPhotoCommand)
  {
    TitleCommandsAt(lines, TitleTop, titleWidth, color);
  }

  /** Detail lines are text, never an image or a frame. */
  lemma DetailsNotAssets(req: CardRequest, yText: int)
    ensures NoneDropped(DetailBlock(req, yText), IsLogoCommand)
    ensures NoneDropped(DetailBlock(req, yText), IsPhotoCommand)
  {
    DetailCommandsAt(StudentDetails(req), yText + 10, req.textColor);
  }

  /** Border, details, photo and footer hold no logo command. */
  lemma BodyNotLogo(req: CardRequest, photo: Upload, yText: int, textWidth: string -> int)
    ensures NoneDropped(BodyCommands(req, photo, yText, textWidth), IsLogoCommand)
  {
    var border := [BorderCommand(req.borderColor)];
    var details := DetailBlock(req, yText);
    var photoCmds := PhotoCommands(photo, req.borderColor);
    var foot := FooterCommands(req, textWidth);
    DetailsNotAssets(req, yText);
    assert NoneDropped(foot, IsLogoCommand);
    NoneDroppedAppend(border, details, IsLogoCommand);
    NoneDroppedAppend(border + details, photoCmds, IsLogoCommand);
    NoneDroppedAppend(border + details + photoCmds, foot, IsLogoCommand);
  }

  /** Logo, title, border and details hold no photo command. */
  lemma HeadNotPhoto(req: CardRequest, logo: Upload, lines: seq<string>, titleWidth: string -> int)
    ensures NoneDropped(HeadCommands(req, logo, lines, titleWidth) + DetailBlock(req, TitleBottom(lines)), IsPhotoCommand)
  {
    var logoCmds := LogoCommands(logo);
    var title := TitleCommands(lines, TitleTop, titleWidth, req.borderColor);
    var border := [BorderCommand(req.borderColor)];
    TitleNotAssets(lines, titleWidth, req.borderColor);
    DetailsNotAssets(req, TitleBottom(lines));
    assert NoneDropped(logoCmds, IsPhotoCommand);
    NoneDroppedAppend(logoCmds, title, IsPhotoCommand);
    NoneDroppedAppend(logoCmds + title, border, IsPhotoCommand);
    NoneDroppedAppend(logoCmds + title + border, DetailBlock(req, TitleBottom(lines)), IsPhotoCommand);
  }

  /** Without a decoded logo the card is the title and the body alone. */
  lemma CardWithoutLogo(req: CardRequest, photo: Upload, logo: Upload, lines: seq<string>,
                        titleWidth: string -> int, textWidth: string -> int)
    requires !logo.Decoded?
    ensures CardLayout(req, photo, logo, lines, titleWidth, textWidth) ==
      TitleCommands(lines, TitleTop, titleWidth, req.borderColor) + BodyCommands(req, photo, TitleBottom(lines), textWidth)
  {
    assert LogoCommands(logo) == [];
  }

  /** Title and body hold no logo command. */
  lemma TitleBodyNotLogo(req: CardRequest, photo: Upload, lines: seq<string>,
                         titleWidth: string -> int, textWidth: string -> int)
    ensures NoneDropped(TitleCommands(lines, TitleTop, titleWidth, req.borderColor)
      + BodyCommands(req, photo, TitleBottom(lines), textWidth), IsLogoCommand)
  {
    TitleNotAssets(lines, titleWidth, req.borderColor);
    BodyNotLogo(req, photo, TitleBottom(lines), textWidth);
    NoneDroppedAppend(TitleCommands(lines, TitleTop, titleWidth, req.borderColor),
                      BodyCommands(req, photo, TitleBottom(lines), textWidth), IsLogoCommand);
  }

  /** Removing the logo commands from a card with a decoded logo leaves
      the title and the body. */
  lemma LogoRemoved(req: CardRequest, photo: Upload, lines: seq<string>,
                    titleWidth: string -> int, textWidth: string -> int, image: ImageRef)
    ensures Remove(CardLayout(req, photo, Decoded(image), lines, titleWidth, textWidth), IsLogoCommand) ==
      TitleCommands(lines, TitleTop, titleWidth, req.borderColor) + BodyCommands(req, photo, TitleBottom(lines), textWidth)
  {
    var title := TitleCommands(lines, TitleTop, titleWidth, req.borderColor);
    var body := BodyCommands(req, photo, TitleBottom(lines), textWidth);
    var logo := LogoCommands(Decoded(image));
    TitleBodyNotLogo(req, photo, lines, titleWidth, textWidth);
    AppendAssoc(logo, title, body);
    RemoveFront(logo, title + body, IsLogoCommand);
  }

  /** A logo that does not decode draws exactly what no logo draws, and a
      decoded logo adds only its own two commands, at the front: the failure
      drops the logo and nothing else. */
  lemma LogoFailureDropsOnlyLogo(req: CardRequest, photo: Upload, lines: seq<string>,
                                 titleWidth: string -> int, textWidth: string -> int, image: ImageRef)
    ensures var ok := CardLayout(req, photo, Decoded(image), lines, titleWidth, textWidth);
      var bad := CardLayout(req, photo, Undecodable, lines, titleWidth, textWidth);
      && bad == CardLayout(req, photo, NoFile, lines, titleWidth, textWidth)
      && ok == LogoCommands(Decoded(image)) + bad
      && Remove(ok, IsLogoCommand) == bad
  {
    CardWithoutLogo(req, photo, Undecodable, lines, titleWidth, textWidth);
    CardWithoutLogo(req, photo, NoFile, lines, titleWidth, textWidth);
    LogoRemoved(req, photo, lines, titleWidth, textWidth, image);
    AppendAssoc(LogoCommands(Decoded(image)), TitleCommands(lines, TitleTop, titleWidth, req.borderColor),
                BodyCommands(req, photo, TitleBottom(lines), textWidth));
  }

  /** Without a decoded photo the card is the head, the details and the
      footer alone. */
  lemma CardWithoutPhoto(req: CardRequest, photo: Upload, logo: Upload, lines: seq<string>,
                         titleWidth: string -> int, textWidth: string -> int)
    requires !photo.Decoded?
    ensures CardLayout(req, photo, logo, lines, titleWidth, textWidth) ==
      (HeadCommands(req, logo, lines, titleWidth) + DetailBlock(req, TitleBottom(lines))) + FooterCommands(req, textWidth)
  {
    CardLayoutAroundPhoto(req, photo, logo, lines, titleWidth, textWidth);
    assert PhotoCommands(photo, req.borderColor) == [];
  }

  /** Removing the photo commands from a card with a decoded photo leaves
      the head, the details and the footer. */
  lemma PhotoRemoved(req: CardRequest, logo: Upload, lines: seq<string>,
                     titleWidth: string -> int, textWidth: string -> int, image: ImageRef)
    ensures Remove(CardLayout(req, Decoded(image), logo, lines, titleWidth, textWidth), IsPhotoCommand) ==
      (HeadCommands(req, logo, lines, titleWidth) + DetailBlock(req, TitleBottom(lines))) + FooterCommands(req, textWidth)
  {
    var head := HeadCommands(req, logo, lines, titleWidth) + DetailBlock(req, TitleBottom(lines));
    var foot := FooterCommands(req, textWidth);
    CardLayoutAroundPhoto(req, Decoded(image), logo, lines, titleWidth, textWidth);
    HeadNotPhoto(req, logo, lines, titleWidth);
    assert NoneDropped(foot, IsPhotoCommand);
    RemoveBetween(head, PhotoCommands(Decoded(image), req.borderColor), foot, IsPhotoCommand);
  }

  /** A decoded photo's commands go in right after the details of the card
      without it. */
  lemma PhotoInserted(req: CardRequest, logo: Upload, lines: seq<string>,
                      titleWidth: string -> int, textWidth: string -> int, image: ImageRef)
    ensures var ok := CardLayout(req, Decoded(image), logo, lines, titleWidth, textWidth);
      var bad := CardLayout(req, NoFile, logo, lines, titleWidth, textWidth);
      var s := DetailStart(logo, lines) + |StudentDetails(req)|;
      s <= |bad| && ok == bad[..s] + PhotoCommands(Decoded(image), req.borderColor) + bad[s..]
  {
    var head := HeadCommands(req, logo, lines, titleWidth) + DetailBlock(req, TitleBottom(lines));
    var foot := FooterCommands(req, textWidth);
    CardLayoutAroundPhoto(req, Decoded(image), logo, lines, titleWidth, textWidth);
    CardWithoutPhoto(req, NoFile, logo, lines, titleWidth, textWidth);
    assert (head + foot)[..|head|] == head && (head + foot)[|head|..] == foot;
  }

  /** A photo that does not decode draws exactly what no photo draws, and a
      decoded photo adds only its own two commands, right after the details:
      the failure drops the photo and nothing else. */
  lemma PhotoFailureDropsOnlyPhoto(req: CardRequest, logo: Upload, lines: seq<string>,
                                   titleWidth: string -> int, textWidth: string -> int, image: ImageRef)
    ensures var ok := CardLayout(req, Decoded(image), logo, lines, titleWidth, textWidth);
      var bad := CardLayout(req, Undecodable, logo, lines, titleWidth, textWidth);
      var s := DetailStart(logo, lines) + |StudentDetails(req)|;
      && bad == CardLayout(req, NoFile, logo, lines, titleWidth, textWidth)
      && s <= |bad|
      && ok == bad[..s] + PhotoCommands(Decoded(image), req.borderColor) + bad[s..]
      && Remove(ok, IsPhotoCommand) == bad
  {
    CardWithoutPhoto(req, Undecodable, logo, lines, titleWidth, textWidth);
    CardWithoutPhoto(req, NoFile, logo, lines, titleWidth, textWidth);
    PhotoInserted(req, logo, lines, titleWidth, textWidth, image);
    PhotoRemoved(req, logo, lines, titleWidth, textWidth, image);
  }

  /** Each upload that does not decode adds its own warning, the logo's in
      front and the photo's at the end; a decoded upload warns no more than
      a missing one. */
  lemma FailureWarnings(photo: Upload, logo: Upload, image: ImageRef)
    ensures Warnings(photo, Undecodable) == [InvalidLogo] + Warnings(photo, NoFile)
    ensures Warnings(photo, Decoded(image)) == Warnings(photo, NoFile)
    ensures Warnings(Undecodable, logo) == Warnings(NoFile, logo) + [InvalidPhoto]
    ensures Warnings(Decoded(image), logo) == Warnings(NoFile, logo)
  {
  }

  /** The title of the card is the wrapped school name: one centred line per
      wrapped line, whose words, joined and split again, are the words of
      the name, and each of which fits or is a single word left whole. */
  lemma CardTitle(req: CardRequest, photo: Upload, logo: Upload, titleWidth: string -> int, textWidth: string -> int)
    ensures var cmds := CardCommands(req, photo, logo, titleWidth, textWidth);
      var lines := SchoolLines(req.schoolName, titleWidth, MaxTitleWidth);
      var l := |LogoCommands(logo)|;
      && |lines| >= 1
      && l + |lines| < |cmds|
      && (forall i :: 0 <= i < |lines| ==>
            cmds[l + i] == DrawText(Centre(titleWidth(lines[i])), TitleTop + TitlePitch * i, lines[i], req.borderColor, TitleFont))
      && Split(JoinWords(NonEmpty(lines))) == Split(req.schoolName)
      && (forall i :: 0 <= i < |lines| && lines[i] != "" ==>
            titleWidth(lines[i]) <= MaxTitleWidth || lines[i] in Split(req.schoolName))
  {
    var lines := SchoolLines(req.schoolName, titleWidth, MaxTitleWidth);
    SchoolLinesProperties(req.schoolName, titleWidth, MaxTitleWidth);
    TitleLayout(req, photo, logo, lines, titleWidth, textWidth);
  }
}
