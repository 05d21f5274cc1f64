/** The stand-alone upload form: a file chosen or captured from the camera,
    free-text notes, a list of tags typed one at a time, and a submit that
    posts all three. */
module ImageUploadForm {
  import opened Wrappers
  import opened Text
  import Seqs
  import Media
  import Json
  import Api

  // ---------------------------------------------------------------- tags

  /** The tag typed into the tag box: the text trimmed, then with its first
      comma removed, the characters before and after that comma kept in
      order. It is empty exactly when the trimmed text is empty or a lone
      comma. */
  function CandidateTag(input: string): (tag: string)
    ensures var t := Trim(input);
      && (IndexOf(t, ',').None? ==> tag == t)
      && (IndexOf(t, ',').Some? ==> tag == t[..IndexOf(t, ',').value] + t[IndexOf(t, ',').value + 1..])
    ensures multiset(tag) == multiset(Trim(input)) - multiset{','}
    ensures tag == "" <==> Trim(input) == "" || Trim(input) == ","
  {
    var t := Trim(input);
    var r := RemoveFirst(t, ',');
    assert IndexOf(t, ',').Some? ==> r == r[..IndexOf(t, ',').value] + r[IndexOf(t, ',').value..];
    assert t == "," ==> ',' in t;
    assert |t| == 1 && t[0] == ',' ==> t == ",";
    r
  }

  /** Enter or `,` in the tag box: the candidate tag, when not empty, is
      appended after the existing tags, which stay as they are. */
  function AddTag(tags: seq<string>, input: string): (r: seq<string>)
    ensures |tags| <= |r| <= |tags| + 1 && r[..|tags|] == tags
    ensures |r| == |tags| + 1 <==> CandidateTag(input) != ""
    ensures |r| == |tags| + 1 ==> r[|tags|] == CandidateTag(input)
  {
    var tag := CandidateTag(input);
    if tag != "" then tags + [tag] else tags
  }

  /** Adding does not look for duplicates: a tag typed again is appended
      again, so it occurs once more than before. */
  lemma AddTagKeepsDuplicates(tags: seq<string>, tag: string)
    requires tag != "" && Trim(tag) == tag && ',' !in tag
    ensures AddTag(tags, tag) == tags + [tag]
    ensures multiset(AddTag(tags, tag))[tag] == multiset(tags)[tag] + 1
  {
    assert RemoveFirst(Trim(tag), ',') == tag;
    assert CandidateTag(tag) == tag;
    assert multiset(tags + [tag]) == multiset(tags) + multiset{tag};
  }

  /** The test the tag filter keeps an element by. */
  function Differs(tag: string): string -> bool {
    t => t != tag
  }

  /** The remove button of a tag: every copy of that tag goes, the other tags
      stay in their order. */
  function RemoveTag(tags: seq<string>, tag: string): (r: seq<string>)
    ensures tag !in r
    ensures forall t :: t in r <==> t in tags && t != tag
    ensures |r| <= |tags|
  {
    Seqs.Filter(tags, Differs(tag))
  }

  /** Removing changes only the removed tag's count, which drops to zero. */
  lemma RemoveTagCounts(tags: seq<string>, tag: string, t: string)
    ensures multiset(RemoveTag(tags, tag))[t] == if t == tag then 0 else multiset(tags)[t]
  {
    Seqs.FilterCounts(tags, Differs(tag), t);
  }

  /** Removal keeps the relative order of the tags: removing from a list cut
      in two is removing from each part. */
  lemma RemoveTagSplits(a: seq<string>, b: seq<string>, tag: string)
    ensures RemoveTag(a + b, tag) == RemoveTag(a, tag) + RemoveTag(b, tag)
  {
    Seqs.FilterAppend(a, b, Differs(tag));
  }

  /** Removing a tag that is not there changes nothing. */
  lemma RemoveAbsentTag(tags: seq<string>, tag: string)
    requires tag !in tags
    ensures RemoveTag(tags, tag) == tags
  {
    Seqs.FilterAllKept(tags, Differs(tag));
  }

  /** Adding a tag and then removing it leaves what removing it alone leaves. */
  lemma AddThenRemove(tags: seq<string>, input: string)
    ensures RemoveTag(AddTag(tags, input), CandidateTag(input)) == RemoveTag(tags, CandidateTag(input))
  {
    var tag := CandidateTag(input);
    if tag != "" {
      RemoveTagSplits(tags, [tag], tag);
      assert RemoveTag([tag], tag) == [];
    }
  }

  // ---------------------------------------------------------------- submit

  /** The form `handleSubmit` posts: exactly `image` (the file under its own
      name, or the text `null` when none is chosen), `documentation` as
      typed, untrimmed, and `tags` as the JSON text of the tag list, which
      reads back as that same list. */
  function SubmitForm(file: Option<Media.File>, documentation: string, tags: seq<string>): (form: Media.FormData)
    ensures |form| == 3
    ensures form[0] == ("image", if file.Some? then Media.FileField(file.value, file.value.name) else Media.TextField("null"))
    ensures form[1] == ("documentation", Media.TextField(documentation))
    ensures form[2].0 == "tags" && form[2].1.TextField?
    ensures Json.ReadArray(form[2].1.text) == Some(tags)
  {
    Json.StringifyRoundTrip(tags);
    [ ("image", if file.Some? then Media.FileField(file.value, file.value.name) else Media.TextField("null")),
      ("documentation", Media.TextField(documentation)),
      ("tags", Media.TextField(Json.Stringify(tags))) ]
  }

  // ---------------------------------------------------------------- data URLs

  /** The characters `.` in a regular expression does not match. */
  predicate IsLineTerminator(c: char) {
    c == '\n' || c == '\r' || c == '\U{2028}' || c == '\U{2029}'
  }

  /** No `;` and no line terminator in `h[a..b]`. */
  predicate Clear(h: string, a: int, b: int)
    requires 0 <= a <= b <= |h|
  {
    forall k :: a <= k < b ==> h[k] != ';' && !IsLineTerminator(h[k])
  }

  /** `h[a..b]` is a match of the group of `/:(.*?);/`: a `:` just before, the
      first `;` after it, and no line terminator between. */
  predicate MimeAt(h: string, a: int, b: int) {
    1 <= a <= b < |h| && h[a - 1] == ':' && h[b] == ';' && Clear(h, a, b)
  }

  /** Where `.*?;` started at `a` stops: at the first `;`, unless a line
      terminator or the end of the text comes first. */
  function GroupEnd(h: string, a: nat): (r: Option<nat>)
    requires a <= |h|
    ensures r.Some? ==> a <= r.value < |h| && h[r.value] == ';' && Clear(h, a, r.value)
    ensures forall b :: a <= b < |h| && h[b] == ';' && Clear(h, a, b) ==> r == Some(b)
    decreases |h| - a
  {
    if a == |h| then None
    else if h[a] == ';' then Some(a)
    else if IsLineTerminator(h[a]) then None
    else
      var r := GroupEnd(h, a + 1);
      assert forall b :: a < b < |h| && Clear(h, a, b) ==> Clear(h, a + 1, b);
      r
  }

  /** The leftmost match of `/:(.*?);/` starting at a `:` at or after `i`. */
  function MimeSpanFrom(h: string, i: nat): (r: Option<(nat, nat)>)
    requires i <= |h|
    ensures r.Some? ==> MimeAt(h, r.value.0, r.value.1) && i < r.value.0
    ensures forall a, b :: i < a && MimeAt(h, a, b) ==> r.Some? && r.value.0 <= a
    decreases |h| - i
  {
    if i == |h| then None
    else if h[i] == ':' && GroupEnd(h, i + 1).Some? then Some((i + 1, GroupEnd(h, i + 1).value))
    else
      var r := MimeSpanFrom(h, i + 1);
      r
  }

  /** `h.match(/:(.*?);/)[1]`: the text of the leftmost match's group, or
      `None` where there is no match and indexing `null` throws. The group
      ends at the first `;` after its `:`. */
  function MatchMime(h: string): (r: Option<string>)
    ensures r.Some? ==> exists a, b :: MimeAt(h, a, b) && r.value == h[a..b] && (forall a', b' :: MimeAt(h, a', b') ==> a <= a')
    ensures r.None? <==> forall a, b :: !MimeAt(h, a, b)
  {
    match MimeSpanFrom(h, 0)
    case None => None
    case Some((a, b)) => Some(h[a..b])
  }

  /** `s.split(',')[0]`: the text before the first comma, all of `s` when it
      has none. */
  function Head(s: string): (r: string)
    ensures ',' !in r
    ensures r == s || (|r| < |s| && s == r + "," + s[|r| + 1..])
  {
    match IndexOf(s, ',')
    case None => s
    case Some(i) =>
      assert s == s[..i] + "," + s[i + 1..];
      s[..i]
  }

  /** `s.split(',')[1]`: the text between the first comma and the next one
      (or the end), `None` (JavaScript's `undefined`) when `s` has no comma. */
  function SecondPiece(s: string): (r: Option<string>)
    ensures r.None? <==> ',' !in s
    ensures r.Some? ==> ',' !in r.value && StartsWith(s[|Head(s)| + 1..], r.value)
    ensures r.Some? ==> var rest := s[|Head(s)| + 1..];
      r.value == rest || (|r.value| < |rest| && rest[|r.value|] == ',')
  {
    match IndexOf(s, ',')
    case None => None
    case Some(i) =>
      var rest := s[i + 1..];
      var piece := Head(rest);
      assert StartsWith(rest, piece);
      Some(piece)
  }

  /** `atob`: the binary string a Base64 text decodes to, or `None` where it
      throws. */
  type Base64Decoder = string -> Option<string>

  /** What a `Uint8Array` stores for one UTF-16 code unit: its low eight bits. */
  function CodeUnit(c: char): Media.byte {
    (c as int) % 256
  }

  /** The bytes `u8arr` holds once the loop has copied `bstr` in. */
  function CodeUnitBytes(bstr: string): (r: seq<Media.byte>)
    ensures |r| == |bstr|
    ensures forall i :: 0 <= i < |bstr| ==> r[i] == CodeUnit(bstr[i])
  {
    seq(|bstr|, i requires 0 <= i < |bstr| => CodeUnit(bstr[i]))
  }

  /** `dataURLtoFile` as a value, `None` where the source throws: there is a
      file exactly when the header has a `:...;` and `atob` accepts the body.
      The file has the name asked for, its type comes from the leftmost
      `:...;` of the header, and it holds one byte per decoded character,
      byte `i` being the code of character `i`. `atob(undefined)` decodes the
      text `undefined`. */
  function DecodedFile(dataUrl: string, filename: string, atob: Base64Decoder): (r: Option<Media.File>)
    ensures r.Some? <==> MatchMime(Head(dataUrl)).Some? && atob(SecondPiece(dataUrl).GetOr("undefined")).Some?
    ensures r.Some? ==>
      var bstr := atob(SecondPiece(dataUrl).GetOr("undefined")).value;
      && r.value.name == filename
      && r.value.mime == Media.BlobType(MatchMime(Head(dataUrl)).value)
      && r.value.Size() == |bstr|
      && forall i :: 0 <= i < |bstr| ==> r.value.content[i] == CodeUnit(bstr[i])
  {
    match MatchMime(Head(dataUrl))
    case None => None
    case Some(mime) =>
      match atob(SecondPiece(dataUrl).GetOr("undefined"))
      case None => None
      case Some(bstr) => Some(Media.File(filename, Media.BlobType(mime), CodeUnitBytes(bstr)))
  }

  /** The `while (n--) u8arr[n] = bstr.charCodeAt(n)` loop, from the last
      index down to the first, into a zero-filled array of the right length. */
  method CharCodes(bstr: string) returns (u8: array<Media.byte>)
    ensures fresh(u8)
    ensures u8[..] == CodeUnitBytes(bstr)
  {
    var n := |bstr|;
    u8 := new Media.byte[n](_ => 0);
    while n > 0
      invariant 0 <= n <= |bstr| == u8.Length
      invariant forall k :: n <= k < |bstr| ==> u8[k] == CodeUnit(bstr[k])
      decreases n
    {
      n := n - 1;
      u8[n] := CodeUnit(bstr[n]);
    }
  }

  /** `dataURLtoFile`: the file it builds, `None` where it throws. */
  method DataUrlToFile(dataUrl: string, filename: string, atob: Base64Decoder) returns (r: Option<Media.File>)
    ensures r == DecodedFile(dataUrl, filename, atob)
  {
    var arr0 := Head(dataUrl);
    var mime := MatchMime(arr0);
    if mime.None? {
      return None;
    }
    var bstr := atob(SecondPiece(dataUrl).GetOr("undefined"));
    if bstr.None? {
      return None;
    }
    var u8arr := CharCodes(bstr.value);
    r := Some(Media.File(filename, Media.BlobType(mime.value), u8arr[..]));
  }

  // ---------------------------------------------------------------- the form

  class Form {
    var file: Option<Media.File>
    var documentation: string
    var showCamera: bool
    var tags: seq<string>
    var preview: string
    /** The text in the (uncontrolled) tag box. */
    var tagInput: string

    constructor ()
      ensures file == None && documentation == "" && !showCamera && tags == [] && preview == "" && tagInput == ""
    {
      file := None;
      documentation := "";
      showCamera := false;
      tags := [];
      preview := "";
      tagInput := "";
    }

    /** `handleFileChange` for a chosen file: it becomes the file, and the
        object URL made for it the preview. */
    method ChooseFile(selected: Media.File, objectUrl: string)
      modifies this
      ensures file == Some(selected) && preview == objectUrl
      ensures documentation == old(documentation) && showCamera == old(showCamera)
      ensures tags == old(tags) && tagInput == old(tagInput)
    {
      file := Some(selected);
      preview := objectUrl;
    }

    /** `handleCapture`: the decoded capture becomes the file, the data URL
        the preview, and the camera closes; where decoding throws, nothing
        changes. */
    method HandleCapture(imageData: string, atob: Base64Decoder) returns (ok: bool)
      modifies this
      ensures ok <==> DecodedFile(imageData, Media.CaptureName, atob).Some?
      ensures ok ==> file == DecodedFile(imageData, Media.CaptureName, atob) && preview == imageData && !showCamera
      ensures !ok ==> file == old(file) && preview == old(preview) && showCamera == old(showCamera)
      ensures documentation == old(documentation) && tags == old(tags) && tagInput == old(tagInput)
    {
      var captured := DataUrlToFile(imageData, Media.CaptureName, atob);
      if captured.None? {
        return false;
      }
      file := captured;
      preview := imageData;
      showCamera := false;
      ok := true;
    }

    method EditDocumentation(text: string)
      modifies this
      ensures documentation == text
      ensures file == old(file) && showCamera == old(showCamera) && tags == old(tags)
      ensures preview == old(preview) && tagInput == old(tagInput)
    {
      documentation := text;
    }

    method TypeTag(text: string)
      modifies this
      ensures tagInput == text
      ensures file == old(file) && documentation == old(documentation) && showCamera == old(showCamera)
      ensures tags == old(tags) && preview == old(preview)
    {
      tagInput := text;
    }

    /** A key pressed in the tag box. Enter and `,` add the candidate tag
        and empty the box, whether or not a tag was added; any other key is
        left to the box. */
    method TagKeyDown(key: string)
      modifies this
      ensures key == "Enter" || key == "," ==> tags == AddTag(old(tags), old(tagInput)) && tagInput == ""
      ensures !(key == "Enter" || key == ",") ==> tags == old(tags) && tagInput == old(tagInput)
      ensures file == old(file) && documentation == old(documentation)
      ensures showCamera == old(showCamera) && preview == old(preview)
    {
      if key == "Enter" || key == "," {
        tags := AddTag(tags, tagInput);
        tagInput := "";
      }
    }

    /** The remove button next to `tag`. */
    method RemoveTagClick(tag: string)
      modifies this
      ensures tags == RemoveTag(old(tags), tag)
      ensures file == old(file) && documentation == old(documentation) && showCamera == old(showCamera)
      ensures preview == old(preview) && tagInput == old(tagInput)
    {
      tags := RemoveTag(tags, tag);
    }

    method OpenCamera()
      modifies this
      ensures showCamera
      ensures file == old(file) && documentation == old(documentation) && tags == old(tags)
      ensures preview == old(preview) && tagInput == old(tagInput)
    {
      showCamera := true;
    }

    /** The camera's close button. */
    method CloseCamera()
      modifies this
      ensures !showCamera
      ensures file == old(file) && documentation == old(documentation) && tags == old(tags)
      ensures preview == old(preview) && tagInput == old(tagInput)
    {
      showCamera := false;
    }

    /** `handleSubmit` up to the upload it awaits: the three fields of the
        form as it stands are posted and nothing on the form changes or is
        disabled, so every other handler, a second submit included, can run
        before the upload settles. */
    method Submit() returns (sent: Media.FormData)
      ensures sent == SubmitForm(file, documentation, tags)
    {
      sent := SubmitForm(file, documentation, tags);
    }

    /** The rest of `handleSubmit` once the upload settles: success clears
        the file, the preview and the notes as they are by then, whether or
        not they were the ones sent, and keeps the tags; failure resets
        nothing. */
    method Settle(reply: Api.Settled<()>)
      modifies this
      ensures reply.Resolved? ==> file == None && preview == "" && documentation == ""
      ensures reply.Rejected? ==> file == old(file) && preview == old(preview) && documentation == old(documentation)
      ensures tags == old(tags) && showCamera == old(showCamera) && tagInput == old(tagInput)
    {
      if reply.Resolved? {
        file := None;
        preview := "";
        documentation := "";
      }
    }
  }
}
