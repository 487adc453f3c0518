# Student ID card composer, modelled in Dafny

The ID card generator is a small web form. It takes a student's details, two
colours, an optional school logo and photo, and composes a 650×400 card
image. Then it wraps that image in a one-page PDF. This project models the
composer, `create_id_card` in `app.py`, as a display list: the ordered
sequence of Pillow drawing calls (`paste`, `text`, `rounded_rectangle`) the
function issues on its canvas, with their exact coordinates, texts, colours
and typefaces.

The project has four modules:

- `PyText` (`pytext.dfy`): the Python string operations the composer relies
  on. These are `str.isspace`, `strip`, `split()` with no separator, and
  `" ".join`. `split()` is also given as CPython's left-to-right scan, and
  proved equal to it.
- `Wrap` (`wrap.dfy`): the greedy word-wrap that breaks the school name into
  title lines. It has a specification function, `WrapFrom`, and the loop
  itself, `WrapWords`, which `WrapSchoolName` runs on the `split()` words of
  the name. The two are tied by the loop's postcondition.
  Lemmas state what the wrap guarantees:
  - there is always at least one line, and no word is lost, duplicated or
    reordered;
  - every line fits, or it is a single word left whole;
  - every line break is forced by the width;
  - the only empty line is a first line left empty when the first word
    alone is too wide.
- `Display` (`display.dfy`): the drawing commands, and a `Canvas` class
  whose methods append one command each to its display list.
- `IdCard` (`idcard.dfy`): the card request, the full command list of a card
  as a function (`CardCommands`), and `CreateIdCard`. `CreateIdCard` runs
  the drawing steps of `create_id_card` in order on a new canvas, through
  one method per step, and is proved to produce exactly `CardCommands`.
  Lemmas about `CardLayout` state:
  - where each title line, detail line, the photo, the signature and the
    contact line land;
  - that each line is centred, right-aligned or left-aligned as drawn;
  - that a logo or photo that fails to decode drops that asset's commands
    and nothing else.

Text width (`draw.textlength`) is a parameter: any function from strings to
integers, one per typeface. Nothing is assumed about it; it need not be
additive or monotone. The photo and the logo are inputs beside the request
(`Upload`): no file, an undecodable file, or a decoded image. The
`st.warning` messages become the returned list of warnings.

## Model

| member | source | states |
|---|---|---|
| PyText.LStrip | app.py:42 | The result is a suffix of the input that does not start with whitespace, and everything dropped is whitespace. |
| PyText.RStrip | app.py:42 | The result is a prefix of the input that does not end with whitespace, and everything dropped is whitespace. |
| PyText.Strip | app.py:42 | The result is a contiguous part of the input with no whitespace at either end, and everything cut off before and after it is whitespace; a string already without such whitespace is returned unchanged. |
| PyText.Split | app.py:39 | Every piece `split()` yields is a non-empty run with no whitespace in it. |
| PyText.SplitKeepsChars | app.py:39 | The pieces `split()` yields, run together, are exactly the non-whitespace characters of the input in order: none is lost, duplicated or moved. |
| PyText.SplitIsScan | app.py:39 | `split()` yields exactly the maximal whitespace-free runs of the input, as a left-to-right scan finds them: a run ends at whitespace or at the end, and empty runs are dropped. |
| PyText.SplitAtSpace | app.py:39 | No piece spans whitespace: cutting the input at a whitespace character cuts the list of pieces at the same place. |
| PyText.SplitGlued | app.py:39 | Only whitespace separates pieces: joining two strings with no whitespace where they meet runs the last piece of the first and the first piece of the second into one, so there is one piece fewer than the two lists together. |
| PyText.SplitJoinWords | app.py:39 | Splitting words joined by single spaces gives back exactly those words. |
| Wrap.TrialLine | app.py:42 | For a trimmed line and a word, the trial line is trimmed and never empty. |
| Wrap.TrialLineIsStrip | app.py:42 | For a trimmed line and a word, `f"{line} {word}".strip()` is exactly the trial line: the word alone when the line is empty, and otherwise the line, one space and the word. |
| Wrap.WrapFrom | app.py:41-48 | The wrap always commits at least one line and never more lines than words plus one. |
| Wrap.WrapLinesFit | app.py:43-47 | Every non-empty line measures at most the maximum width, or it is a single word that was left whole. |
| Wrap.WrapEmptyLines | app.py:40-48 | There is at least one line; no words give `[""]`. A line is empty exactly when it is the first line and either there are no words or the first word alone is too wide. |
| Wrap.WrapKeepsWords | app.py:41-48 | Joining the non-empty lines with spaces gives the words joined with spaces, and splitting that gives the same words: nothing is lost, duplicated or reordered. |
| Wrap.WrapBreaks | app.py:43-47 | At every line break, the line with the next line's first word appended measures more than the maximum width. |
| Wrap.WrapProperties | app.py:40-48 | For any words, the wrap has all the properties above at once (`WrapGuarantees`). |
| Wrap.SchoolLinesProperties | app.py:38-48 | Applied to the `split()` words of any school name, the wrap has all the properties above. |
| Wrap.WrapSchoolName | app.py:38-48 | The school name's title lines are exactly the wrap of its `split()` words, and there is at least one. |
| Wrap.WrapWords | app.py:40-48 | The loop, with its committed lines and current line, yields exactly the wrap of the words. |
| Wrap.JoinStripped | app.py:42 | The trial line the loop computes with `strip()` is the current line and the word joined by one space, or the word alone when the line is empty. |
| Wrap.WrapLoopFits | app.py:42-44 | In a turn whose trial line fits, the trial line becomes the current line, stays trimmed, and the wrap still comes out the same. |
| Wrap.WrapLoopBreaks | app.py:45-47 | In a turn whose trial line is too wide, committing the current line and restarting from the word keeps the wrap the same. |
| Display.Canvas.constructor | app.py:10-12 | A new canvas has the given size and background and a display list with no commands. |
| Display.Canvas.Paste | app.py:31 | Pasting an image appends exactly that one command and changes nothing else. |
| Display.Canvas.PasteSolid | app.py:32-33 | Pasting the RGBA overlay block appends exactly that one command. |
| Display.Canvas.Text | app.py:53 | `draw.text` appends exactly that one command, with its position, text, colour and typeface. |
| Display.Canvas.RoundedRect | app.py:57 | `draw.rounded_rectangle` appends exactly that one command, with its corners, outline, stroke width and radius. |
| IdCard.Centre | app.py:53 | `(650 - w) // 2` centres a text of width `w`: its left and right margins differ by at most one unit. |
| IdCard.TitleCommandsAt | app.py:50-54 | Title line `i` is drawn with the title typeface in the border colour, centred, 40·i below the first line. |
| IdCard.StudentDetailsShape | app.py:62-74 | The detail list holds the six labelled fields first, in order, then one more entry per non-empty date. A present issue date comes seventh, and a present expiry date comes last. |
| IdCard.DetailCommandsAt | app.py:76-78 | Detail `i` is drawn at x = 50, 28·i below the first detail, in the text colour and typeface. |
| IdCard.SignatureCommand | app.py:93-95 | The signature label is drawn at y = 330, and its right edge is 30 units from the right side of the card. |
| IdCard.Warnings | app.py:28-90 | The logo warning is present exactly when the logo does not decode, and the photo warning exactly when the photo does not decode; otherwise there are no warnings. |
| IdCard.DrawLogo | app.py:28-35 | A decoded logo appends its paste and its 220-alpha white veil at the centred 500×300 box; an undecodable logo appends nothing and warns; no logo does nothing. |
| IdCard.DrawTitle | app.py:50-54 | The loop appends one centred title command per line and returns `y_text` as 30 + 40 × the number of lines. |
| IdCard.BuildDetails | app.py:62-74 | The list built step by step equals the detail list of the request. |
| IdCard.DrawDetails | app.py:59-78 | The loop appends one left-aligned command per detail, starting at `y_text + 10` and stepping by 28. |
| IdCard.DrawPhoto | app.py:81-90 | A decoded photo appends its elliptically masked paste at (500, 100) and its 500,100–620,240 frame; an undecodable photo appends nothing and warns. |
| IdCard.DrawFooter | app.py:92-101 | Appends the right-aligned signature, then the centred `Contact: …` line only when the contact is non-empty. |
| IdCard.DrawBody | app.py:56-101 | Border, details, photo and footer are appended in the order drawn, below a title block ending at `yText`. |
| IdCard.Compose | app.py:27-101 | For wrapped title lines, every command of the card is appended in the order drawn, and the warnings are those of the two uploads. |
| IdCard.CreateIdCard | app.py:9-103 | The canvas is new, 650×400 and white, and holds exactly the card's commands; the warnings are exactly those for the undecodable uploads. |
| IdCard.TitleLayout | app.py:27-57 | The card starts with the logo commands; title line `i` follows them, centred at y = 30 + 40·i; then comes the border. |
| IdCard.CardLength | app.py:27-101 | The card holds one command per logo step, title line, detail and photo step, plus the border and the signature, plus one for a non-empty contact. |
| IdCard.DetailsLayout | app.py:59-78 | Detail `i` sits at (50, `y_text` + 10 + 28·i), directly after the border, so consecutive details are exactly 28 apart and a missing date leaves no gap. |
| IdCard.FooterLayout | app.py:80-101 | The photo commands follow the details; the signature follows the photo; the card has exactly one more command after the signature when there is a contact, and none otherwise. |
| IdCard.ContactLast | app.py:97-101 | The last command is the centred contact line at y = 360 exactly when the contact is non-empty. |
| IdCard.LogoFailureDropsOnlyLogo | app.py:28-35 | An undecodable logo draws the same card as no logo. A decoded logo draws its two commands in front of that card and nothing else changes. Removing the logo commands from the decoded card gives the failed card. |
| IdCard.PhotoFailureDropsOnlyPhoto | app.py:81-90 | An undecodable photo draws the same card as no photo. A decoded photo inserts its two commands right after the details and nothing else changes. Removing the photo commands from the decoded card gives the failed card. |
| IdCard.FailureWarnings | app.py:28-90 | An undecodable logo adds its warning in front, and an undecodable photo adds its warning at the end; a decoded upload warns no more than a missing one. |
| IdCard.CardTitle | app.py:37-54 | The card's title commands are the wrapped lines of the school name, at least one. Their words, joined and split again, are the words of the name. Each non-empty line fits in 550 units or is a single word. |

## Left out

- `main` (app.py:120-169) is not part of this model. This includes the form, the required-fields check, the reset button and the downloads; it is all user interface.
- `create_pdf` (app.py:106-117) is not part of this model. It only encodes the finished image into a PDF page.
- The font fallback chain (app.py:15-25) and its "Default font loaded." warning are not modelled. Font loading is I/O; each typeface appears only as its text-width function and a `Font` tag.
- Pixel work is left to the imaging library. This covers decoding, resizing, RGBA conversion, alpha compositing, the elliptical mask and rasterising rounded rectangles. Decoded images are opaque references, and each result is recorded as a command.
- Colours are opaque values passed through unchanged. The background colour is recorded as `"white"`.
- `draw.textlength` returns a float in Pillow. Here it is an integer-valued function, so `(650 - w) // 2` is integer floor division. Sub-unit float positions are not modelled.
- Image decoding is an outside call. Whether it succeeds is an input (`Upload.Undecodable`), not something the model computes.
- `st.warning` is a call into the web framework. It is modelled as the list of warnings `CreateIdCard` returns, in the order they would be shown.
- `PyText.IsSpace` follows Python's `str.isspace` code-point table. The Unicode database itself is not modelled.
- `create_id_card` is one Python function. The model splits it into one method per drawing step (`DrawLogo`, `DrawTitle`, `DrawBody`, `DrawDetails`, `DrawPhoto`, `DrawFooter`) and composes them in source order (`Compose`, `CreateIdCard`). Each step's contract states exactly the commands it appends.
- Wrap.WrapLinesFit: an empty first line is exempt from the width bound. For an arbitrary text-width function, nothing is known about the width of `""`.
