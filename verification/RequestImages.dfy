/**
 * The image limit of a request: the newest images that fit stay, every other one
 * is replaced by a note.
 */
module RequestImages {
  import opened Types

  const MAX_REQUEST_IMAGES: nat := 32

  /** Images kept so far, and their bytes. */
  datatype Used = Used(count: nat, bytes: nat)

  const NOTHING_USED: Used := Used(0, 0)

  function SaturatingAdd(a: nat, b: nat): (r: nat) {
    if a + b <= U64_MAX then a + b else U64_MAX
  }

  predicate Fits(used: Used, image: Image) {
    used.count < MAX_REQUEST_IMAGES && SaturatingAdd(used.bytes, image.byteLength) <= MAX_REQUEST_IMAGE_BYTES
  }

  function With(used: Used, image: Image): (r: Used) {
    if Fits(used, image) then Used(used.count + 1, used.bytes + image.byteLength) else used
  }

  function OmittedImage(image: Image): (r: ContentPart) {
    TextPart("[Image " + image.id + " omitted from active context. Reopen with kraai-view-image --attachment "
             + image.id + "]")
  }

  /** What is used after looking at images in the given order, newest first. */
  function UsedBy(images: seq<Image>, used: Used): (r: Used)
    decreases |images|
  {
    if images == [] then used else With(UsedBy(images[..|images| - 1], used), images[|images| - 1])
  }

  /** The images that stay. */
  function Kept(images: seq<Image>, used: Used): (r: seq<Image>)
    decreases |images|
  {
    if images == [] then [] else
    var front, last := images[..|images| - 1], images[|images| - 1];
    Kept(front, used) + (if Fits(UsedBy(front, used), last) then [last] else [])
  }

  /** The images of a message, newest first. */
  function PartImages(parts: seq<ContentPart>): (r: seq<Image>)
    decreases |parts|
  {
    if parts == [] then [] else PartImages(parts[1..]) + (if parts[0].ImagePart? then [parts[0].image] else [])
  }

  function Parts(item: ConversationItem): (r: seq<ContentPart>) {
    match item
    case User(content) => content
    case ScriptResult(_, output, _) => output
    case _ => []
  }

  function WithParts(item: ConversationItem, parts: seq<ContentPart>): (r: ConversationItem)
    ensures |parts| == |Parts(item)| ==> Parts(r) == parts
  {
    match item
    case User(_) => User(parts)
    case ScriptResult(callId, _, outcome) => ScriptResult(callId, parts, outcome)
    case _ => item
  }

  /** All images of a request, newest first. */
  function AllImages(messages: seq<ConversationItem>): (r: seq<Image>)
    decreases |messages|
  {
    if messages == [] then [] else AllImages(messages[1..]) + PartImages(Parts(messages[0]))
  }

  function Limited(part: ContentPart, used: Used): (r: ContentPart) {
    if part.ImagePart? && !Fits(used, part.image) then OmittedImage(part.image) else part
  }

  /** Each part, judged by the newer images of its message and what was used before them. */
  function LimitedParts(parts: seq<ContentPart>, used: Used): (r: seq<ContentPart>)
    ensures |r| == |parts|
    decreases |parts|
  {
    if parts == [] then [] else
    [Limited(parts[0], UsedBy(PartImages(parts[1..]), used))] + LimitedParts(parts[1..], used)
  }

  /** Each message, judged by all newer ones. */
  function LimitedMessages(messages: seq<ConversationItem>): (r: seq<ConversationItem>)
    ensures |r| == |messages|
    decreases |messages|
  {
    if messages == [] then [] else
    [WithParts(messages[0], LimitedParts(Parts(messages[0]), UsedBy(AllImages(messages[1..]), NOTHING_USED)))]
    + LimitedMessages(messages[1..])
  }

  lemma {:induction false} UsedByConcat(a: seq<Image>, b: seq<Image>, used: Used)
    ensures UsedBy(a + b, used) == UsedBy(b, UsedBy(a, used))
    ensures Kept(a + b, used) == Kept(a, used) + Kept(b, UsedBy(a, used))
    decreases |b|
  {
    if b == [] {
      assert a + b == a;
    } else {
      assert (a + b)[..|a + b| - 1] == a + b[..|b| - 1];
      UsedByConcat(a, b[..|b| - 1], used);
    }
  }

  /** One more part looked at, going back from the end. */
  lemma OnePartMore(parts: seq<ContentPart>, used: Used)
    requires parts != []
    ensures
      var newer := UsedBy(PartImages(parts[1..]), used);
      UsedBy(PartImages(parts), used) == if parts[0].ImagePart? then With(newer, parts[0].image) else newer
  {
    var newer := PartImages(parts[1..]);
    if parts[0].ImagePart? {
      assert (newer + [parts[0].image])[..|newer|] == newer;
    } else {
      assert PartImages(parts) == newer;
    }
  }

  lemma Replaced<T>(before: seq<T>, i: nat, tail: seq<T>, item: T)
    requires i < |before|
    ensures (before[..i + 1] + tail)[i := item] == before[..i] + ([item] + tail)
  {
  }

  method LimitPart(part: ContentPart, used: Used) returns (part': ContentPart, used': Used)
    ensures part' == Limited(part, used) && used' == if part.ImagePart? then With(used, part.image) else used
  {
    part', used' := part, used;
    if part.ImagePart? {
      var image := part.image;
      if used.count < MAX_REQUEST_IMAGES && SaturatingAdd(used.bytes, image.byteLength) <= MAX_REQUEST_IMAGE_BYTES {
        used' := Used(used.count + 1, used.bytes + image.byteLength);
      } else {
        part' := OmittedImage(image);
      }
    }
  }

  /** The inner loop: parts of one message, last first, rewritten in place. */
  method LimitParts(content: seq<ContentPart>, used: Used) returns (parts: seq<ContentPart>, used': Used)
    ensures parts == LimitedParts(content, used) && used' == UsedBy(PartImages(content), used)
  {
    parts, used' := content, used;
    var i := |content|;
    while i > 0
      invariant 0 <= i <= |content|
      invariant used' == UsedBy(PartImages(content[i..]), used)
      invariant parts == content[..i] + LimitedParts(content[i..], used)
    {
      i := i - 1;
      ghost var rest := content[i..];
      assert rest[1..] == content[i + 1..];
      OnePartMore(rest, used);
      var part;
      part, used' := LimitPart(parts[i], used');
      Replaced(content, i, LimitedParts(rest[1..], used), part);
      parts := parts[i := part];
    }
    assert content[0..] == content;
  }

  method LimitMessage(message: ConversationItem, used: Used) returns (item: ConversationItem, used': Used)
    ensures item == WithParts(message, LimitedParts(Parts(message), used))
    ensures used' == UsedBy(PartImages(Parts(message)), used)
  {
    var parts;
    match message
    case User(content) =>
      parts, used' := LimitParts(content, used);
      item := User(parts);
    case ScriptResult(callId, output, outcome) =>
      parts, used' := LimitParts(output, used);
      item := ScriptResult(callId, parts, outcome);
    case _ => item, used' := message, used;
  }

  /** A provider request, of which only the messages matter here. */
  class ProviderRequest {
    var messages: seq<ConversationItem>

    constructor (messages: seq<ConversationItem>)
      ensures this.messages == messages
    {
      this.messages := messages;
    }

    method LimitImages()
      modifies this
      ensures messages == LimitedMessages(old(messages))
    {
      ghost var before := messages;
      var used := NOTHING_USED;
      var i := |messages|;
      while i > 0
        invariant 0 <= i <= |before|
        invariant used == UsedBy(AllImages(before[i..]), NOTHING_USED)
        invariant messages == before[..i] + LimitedMessages(before[i..])
      {
        i := i - 1;
        ghost var rest := before[i..];
        assert rest[1..] == before[i + 1..] && before[..i + 1] == before[..i] + [before[i]];
        UsedByConcat(AllImages(rest[1..]), PartImages(Parts(rest[0])), NOTHING_USED);
        var item;
        item, used := LimitMessage(messages[i], used);
        Replaced(before, i, LimitedMessages(rest[1..]), item);
        messages := messages[i := item];
      }
      assert before[0..] == before;
    }
  }

  lemma {:induction false} LimitedPartAt(parts: seq<ContentPart>, used: Used, p: nat)
    requires p < |parts|
    ensures LimitedParts(parts, used)[p] == Limited(parts[p], UsedBy(PartImages(parts[p + 1..]), used))
    decreases p
  {
    if p > 0 {
      LimitedPartAt(parts[1..], used, p - 1);
      assert parts[1..][p..] == parts[p + 1..];
    }
  }

  lemma {:induction false} LimitedMessageAt(messages: seq<ConversationItem>, m: nat)
    requires m < |messages|
    ensures LimitedMessages(messages)[m]
         == WithParts(messages[m], LimitedParts(Parts(messages[m]), UsedBy(AllImages(messages[m + 1..]), NOTHING_USED)))
    decreases m
  {
    if m > 0 {
      LimitedMessageAt(messages[1..], m - 1);
      assert messages[1..][m..] == messages[m + 1..];
    }
  }

  /** An image is omitted exactly when it would break a limit beside the newer ones kept. */
  lemma ImageOmittedExactly(messages: seq<ConversationItem>, m: nat, p: nat)
    requires m < |messages| && p < |Parts(messages[m])| && Parts(messages[m])[p].ImagePart?
    ensures
      var image := Parts(messages[m])[p].image;
      var newer := Kept(AllImages(messages[m + 1..]) + PartImages(Parts(messages[m])[p + 1..]), NOTHING_USED);
      && |Parts(LimitedMessages(messages)[m])| == |Parts(messages[m])|
      && Parts(LimitedMessages(messages)[m])[p]
         == if |newer| + 1 > MAX_REQUEST_IMAGES || TotalBytes(newer) + image.byteLength > MAX_REQUEST_IMAGE_BYTES
            then OmittedImage(image) else ImagePart(image)
  {
    var later, parts := AllImages(messages[m + 1..]), Parts(messages[m]);
    LimitedMessageAt(messages, m);
    LimitedPartAt(parts, UsedBy(later, NOTHING_USED), p);
    UsedByConcat(later, PartImages(parts[p + 1..]), NOTHING_USED);
    LimitedBeside(parts[p].image, later + PartImages(parts[p + 1..]));
  }

  /** The two counters stand for the newer images kept. */
  lemma LimitedBeside(image: Image, newer: seq<Image>)
    ensures
      var kept := Kept(newer, NOTHING_USED);
      Limited(ImagePart(image), UsedBy(newer, NOTHING_USED))
      == if |kept| + 1 > MAX_REQUEST_IMAGES || TotalBytes(kept) + image.byteLength > MAX_REQUEST_IMAGE_BYTES
         then OmittedImage(image) else ImagePart(image)
  {
    UsedByKept(newer, NOTHING_USED);
  }

  /** Nothing but images is touched. */
  lemma TextKept(messages: seq<ConversationItem>, m: nat, p: nat)
    requires m < |messages| && p < |Parts(messages[m])| && !Parts(messages[m])[p].ImagePart?
    ensures
      var limited := LimitedMessages(messages)[m];
      && |Parts(limited)| == |Parts(messages[m])| && Parts(limited)[p] == Parts(messages[m])[p]
      && WithParts(limited, []) == WithParts(messages[m], [])
  {
    LimitedMessageAt(messages, m);
    LimitedPartAt(Parts(messages[m]), UsedBy(AllImages(messages[m + 1..]), NOTHING_USED), p);
  }

  function TotalBytes(images: seq<Image>): (r: nat)
    decreases |images|
  {
    if images == [] then 0 else TotalBytes(images[..|images| - 1]) + images[|images| - 1].byteLength
  }

  lemma {:induction false} UsedByKept(images: seq<Image>, used: Used)
    ensures UsedBy(images, used) == Used(used.count + |Kept(images, used)|, used.bytes + TotalBytes(Kept(images, used)))
    decreases |images|
  {
    if images != [] {
      var front, last := images[..|images| - 1], images[|images| - 1];
      UsedByKept(front, used);
      var kept := Kept(front, used);
      if Fits(UsedBy(front, used), last) {
        assert (kept + [last])[..|kept|] == kept;
      } else {
        assert Kept(images, used) == kept;
      }
    }
  }

  lemma {:induction false} UsedWithinLimits(images: seq<Image>)
    ensures UsedBy(images, NOTHING_USED).count <= MAX_REQUEST_IMAGES
            && UsedBy(images, NOTHING_USED).bytes <= MAX_REQUEST_IMAGE_BYTES
    decreases |images|
  {
    if images != [] {
      UsedWithinLimits(images[..|images| - 1]);
    }
  }

  lemma {:induction false} LimitedPartsKeep(parts: seq<ContentPart>, used: Used)
    ensures PartImages(LimitedParts(parts, used)) == Kept(PartImages(parts), used)
    decreases |parts|
  {
    if parts != [] {
      LimitedPartsKeep(parts[1..], used);
      var newer := PartImages(parts[1..]);
      var limited := LimitedParts(parts, used);
      assert limited[1..] == LimitedParts(parts[1..], used);
      if parts[0].ImagePart? {
        assert (newer + [parts[0].image])[..|newer|] == newer;
      } else {
        assert PartImages(parts) == newer;
      }
    }
  }

  lemma {:induction false} LimitedMessagesKeep(messages: seq<ConversationItem>)
    ensures AllImages(LimitedMessages(messages)) == Kept(AllImages(messages), NOTHING_USED)
    decreases |messages|
  {
    if messages != [] {
      LimitedMessagesKeep(messages[1..]);
      var newer := AllImages(messages[1..]);
      var limited := LimitedMessages(messages);
      assert limited[1..] == LimitedMessages(messages[1..]);
      LimitedPartsKeep(Parts(messages[0]), UsedBy(newer, NOTHING_USED));
      UsedByConcat(newer, PartImages(Parts(messages[0])), NOTHING_USED);
    }
  }

  /** How many images a request holds, and how many bytes of them, counted straight from its messages. */
  function CountIn(parts: seq<ContentPart>): (r: Used)
    decreases |parts|
  {
    if parts == [] then NOTHING_USED else
    var rest := CountIn(parts[1..]);
    if parts[0].ImagePart? then Used(rest.count + 1, rest.bytes + parts[0].image.byteLength) else rest
  }

  function CountMessage(message: ConversationItem): (r: Used) {
    match message
    case User(content) => CountIn(content)
    case ScriptResult(_, output, _) => CountIn(output)
    case _ => NOTHING_USED
  }

  function Counted(messages: seq<ConversationItem>): (r: Used)
    decreases |messages|
  {
    if messages == [] then NOTHING_USED else
    var first, rest := CountMessage(messages[0]), Counted(messages[1..]);
    Used(first.count + rest.count, first.bytes + rest.bytes)
  }

  lemma {:induction false} TotalConcat(a: seq<Image>, b: seq<Image>)
    ensures TotalBytes(a + b) == TotalBytes(a) + TotalBytes(b)
    decreases |b|
  {
    if b == [] {
      assert a + b == a;
    } else {
      assert (a + b)[..|a + b| - 1] == a + b[..|b| - 1];
      TotalConcat(a, b[..|b| - 1]);
    }
  }

  lemma {:induction false} PartsCounted(parts: seq<ContentPart>)
    ensures CountIn(parts) == Used(|PartImages(parts)|, TotalBytes(PartImages(parts)))
    decreases |parts|
  {
    if parts != [] {
      PartsCounted(parts[1..]);
      if parts[0].ImagePart? {
        var newer, image := PartImages(parts[1..]), parts[0].image;
        assert (newer + [image])[..|newer|] == newer;
      } else {
        assert PartImages(parts) == PartImages(parts[1..]);
      }
    }
  }

  lemma MessageCounted(message: ConversationItem)
    ensures CountMessage(message) == Used(|PartImages(Parts(message))|, TotalBytes(PartImages(Parts(message))))
  {
    PartsCounted(Parts(message));
  }

  lemma {:induction false} MessagesCounted(messages: seq<ConversationItem>)
    ensures Counted(messages) == Used(|AllImages(messages)|, TotalBytes(AllImages(messages)))
    decreases |messages|
  {
    if messages != [] {
      MessagesCounted(messages[1..]);
      MessageCounted(messages[0]);
      TotalConcat(AllImages(messages[1..]), PartImages(Parts(messages[0])));
    }
  }

  /** A limited request is within both limits and holds exactly the images that were to stay. */
  lemma LimitHolds(messages: seq<ConversationItem>)
    ensures AllImages(LimitedMessages(messages)) == Kept(AllImages(messages), NOTHING_USED)
    ensures Counted(LimitedMessages(messages)).count <= 32
            && Counted(LimitedMessages(messages)).bytes <= 32 * 1024 * 1024
  {
    LimitedMessagesKeep(messages);
    UsedByKept(AllImages(messages), NOTHING_USED);
    UsedWithinLimits(AllImages(messages));
    MessagesCounted(LimitedMessages(messages));
  }

  /** A request within both limits is left alone. */
  lemma FittingRequestUntouched(messages: seq<ConversationItem>)
    requires Counted(messages).count <= 32 && Counted(messages).bytes <= 32 * 1024 * 1024
    ensures LimitedMessages(messages) == messages
  {
    MessagesCounted(messages);
    AllFit(AllImages(messages));
    FittingUntouched(messages);
  }

  lemma FitsWithin(used: Used, image: Image)
    requires used.count < MAX_REQUEST_IMAGES && used.bytes + image.byteLength <= MAX_REQUEST_IMAGE_BYTES
    ensures Fits(used, image)
  {
  }

  lemma {:induction false} AllFit(images: seq<Image>)
    requires |images| <= MAX_REQUEST_IMAGES && TotalBytes(images) <= MAX_REQUEST_IMAGE_BYTES
    ensures Kept(images, NOTHING_USED) == images
    decreases |images|
  {
    if images != [] {
      var front, last := images[..|images| - 1], images[|images| - 1];
      AllFit(front);
      UsedByKept(front, NOTHING_USED);
      FitsWithin(Used(|front|, TotalBytes(front)), last);
      assert front + [last] == images;
    }
  }

  /** If everything fits nothing is touched; in particular limiting twice is limiting once. */
  lemma {:induction false} FittingPartsUntouched(parts: seq<ContentPart>, used: Used)
    requires Kept(PartImages(parts), used) == PartImages(parts)
    ensures LimitedParts(parts, used) == parts
    decreases |parts|
  {
    if parts != [] {
      var newer := PartImages(parts[1..]);
      if parts[0].ImagePart? {
        assert (newer + [parts[0].image])[..|newer|] == newer;
        KeptShorter(newer, used);
      } else {
        assert PartImages(parts) == newer;
      }
      FittingPartsUntouched(parts[1..], used);
      assert LimitedParts(parts, used)[0] == parts[0];
      HeadTail(LimitedParts(parts, used), parts);
    }
  }

  lemma {:induction false} KeptShorter(images: seq<Image>, used: Used)
    ensures |Kept(images, used)| <= |images|
    decreases |images|
  {
    if images != [] {
      KeptShorter(images[..|images| - 1], used);
    }
  }

  lemma FittingMessageUntouched(message: ConversationItem, used: Used)
    requires Kept(PartImages(Parts(message)), used) == PartImages(Parts(message))
    ensures WithParts(message, LimitedParts(Parts(message), used)) == message
  {
    FittingPartsUntouched(Parts(message), used);
  }

  lemma HeadTail<T>(a: seq<T>, b: seq<T>)
    requires |a| == |b| > 0 && a[0] == b[0] && a[1..] == b[1..]
    ensures a == b
  {
    assert a == [a[0]] + a[1..] && b == [b[0]] + b[1..];
  }

  lemma SplitEqual(a: seq<Image>, b: seq<Image>, c: seq<Image>, d: seq<Image>)
    requires a + b == c + d && |a| <= |c| && |b| <= |d|
    ensures a == c && b == d
  {
    assert |a + b| == |a| + |b| && |c + d| == |c| + |d|;
    assert a == (a + b)[..|a|] && c == (c + d)[..|a|];
    assert b == (a + b)[|a|..] && d == (c + d)[|a|..];
  }

  lemma FittingSplit(newer: seq<Image>, own: seq<Image>)
    requires Kept(newer + own, NOTHING_USED) == newer + own
    ensures Kept(newer, NOTHING_USED) == newer && Kept(own, UsedBy(newer, NOTHING_USED)) == own
  {
    UsedByConcat(newer, own, NOTHING_USED);
    KeptShorter(newer, NOTHING_USED);
    KeptShorter(own, UsedBy(newer, NOTHING_USED));
    SplitEqual(Kept(newer, NOTHING_USED), Kept(own, UsedBy(newer, NOTHING_USED)), newer, own);
  }

  lemma {:induction false} FittingUntouched(messages: seq<ConversationItem>)
    requires Kept(AllImages(messages), NOTHING_USED) == AllImages(messages)
    ensures LimitedMessages(messages) == messages
    decreases |messages|
  {
    if messages != [] {
      var first, rest := messages[0], messages[1..];
      FittingSplit(AllImages(rest), PartImages(Parts(first)));
      FittingMessageUntouched(first, UsedBy(AllImages(rest), NOTHING_USED));
      FittingUntouched(rest);
      assert LimitedMessages(messages)[0] == first;
      HeadTail(LimitedMessages(messages), messages);
    }
  }

  lemma {:induction false} KeptAgain(images: seq<Image>)
    ensures Kept(Kept(images, NOTHING_USED), NOTHING_USED) == Kept(images, NOTHING_USED)
    ensures UsedBy(Kept(images, NOTHING_USED), NOTHING_USED) == UsedBy(images, NOTHING_USED)
    decreases |images|
  {
    if images != [] {
      var front, last := images[..|images| - 1], images[|images| - 1];
      KeptAgain(front);
      var kept := Kept(front, NOTHING_USED);
      if Fits(UsedBy(front, NOTHING_USED), last) {
        assert (kept + [last])[..|kept|] == kept;
      } else {
        assert Kept(images, NOTHING_USED) == kept;
      }
    }
  }

  lemma LimitTwice(messages: seq<ConversationItem>)
    ensures LimitedMessages(LimitedMessages(messages)) == LimitedMessages(messages)
  {
    LimitedMessagesKeep(messages);
    KeptAgain(AllImages(messages));
    FittingUntouched(LimitedMessages(messages));
  }
}
