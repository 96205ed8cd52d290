/** The group card of src/component/GroupCard.js: which prompt the header
    shows, how each image tile is drawn, the two image sections with the
    divider between them, and the card's two pieces of state, `expanded`
    and `modalImage`, with the click handlers that change them. */
module GroupCard {
  import opened Common

  /** An input or output image record as the dashboard API returns it. A
      missing `status` is modelled as the empty string. */
  datatype Image = Image(
    url: Option<string>,
    status: string,
    prompt: Option<string>,
    enhancedPrompt: Option<string>)

  /** A group record: identifier, owner and its input and output images. */
  datatype Group = Group(
    groupId: int,
    userEmail: string,
    createdBy: string,
    inputCount: int,
    outputCount: int,
    inputImages: seq<Image>,
    outputImages: seq<Image>)

  function PromptOf(img: Image): Option<string> { img.prompt }

  function EnhancedPromptOf(img: Image): Option<string> { img.enhancedPrompt }

  /** `images.find((img) => img[field])`, as the index of the image found. */
  function FindFirst(images: seq<Image>, field: Image -> Option<string>): (r: Option<nat>)
    ensures r.Some? ==> r.value < |images| && Truthy(field(images[r.value]))
    ensures r.Some? ==> forall j :: 0 <= j < r.value ==> !Truthy(field(images[j]))
    ensures r.None? <==> forall j :: 0 <= j < |images| ==> !Truthy(field(images[j]))
  {
    if images == [] then None
    else if Truthy(field(images[0])) then Some(0)
    else match FindFirst(images[1..], field)
      case None => None
      case Some(k) => Some(k + 1)
  }

  /** `images.find((img) => img[field])?.[field] || null`. */
  function FirstTruthy(images: seq<Image>, field: Image -> Option<string>): (r: Option<string>)
    ensures r.Some? ==> r.value != ""
    ensures r.None? <==> forall j :: 0 <= j < |images| ==> !Truthy(field(images[j]))
    ensures r.Some? ==> exists i :: 0 <= i < |images| && field(images[i]) == r
  {
    match FindFirst(images, field)
    case Some(i) => field(images[i])
    case None => None
  }

  /** The prompt shown in the card header. */
  function GroupPrompt(g: Group): (p: Option<string>)
    ensures p.Some? ==> p.value != "" && exists i :: 0 <= i < |g.outputImages| && g.outputImages[i].prompt == p
  {
    FirstTruthy(g.outputImages, PromptOf)
  }

  /** The enhanced prompt shown in the card header. */
  function EnhancedGroupPrompt(g: Group): (p: Option<string>)
    ensures p.Some? ==> p.value != "" && exists i :: 0 <= i < |g.outputImages| && g.outputImages[i].enhancedPrompt == p
  {
    FirstTruthy(g.outputImages, EnhancedPromptOf)
  }

  /** The header prompt is the prompt of the first output image whose prompt
      is a non-empty string, and is absent when there is none. */
  lemma GroupPromptIsFirstNonEmpty(g: Group)
    ensures GroupPrompt(g).Some? <==> exists i :: 0 <= i < |g.outputImages| && Truthy(g.outputImages[i].prompt)
    ensures GroupPrompt(g).Some? ==> GroupPrompt(g).value != ""
    ensures GroupPrompt(g).Some? ==>
      exists i :: 0 <= i < |g.outputImages| && g.outputImages[i].prompt == GroupPrompt(g) &&
        forall j :: 0 <= j < i ==> !Truthy(g.outputImages[j].prompt)
  {
    var r := FindFirst(g.outputImages, PromptOf);
    if r.Some? {
      assert PromptOf(g.outputImages[r.value]) == g.outputImages[r.value].prompt;
      assert forall j :: 0 <= j < r.value ==> !Truthy(PromptOf(g.outputImages[j]));
    } else {
      assert forall j :: 0 <= j < |g.outputImages| ==> !Truthy(PromptOf(g.outputImages[j]));
    }
  }

  /** The same rule, on `enhanced_prompt`. */
  lemma EnhancedPromptIsFirstNonEmpty(g: Group)
    ensures EnhancedGroupPrompt(g).Some? <==> exists i :: 0 <= i < |g.outputImages| && Truthy(g.outputImages[i].enhancedPrompt)
    ensures EnhancedGroupPrompt(g).Some? ==> EnhancedGroupPrompt(g).value != ""
    ensures EnhancedGroupPrompt(g).Some? ==>
      exists i :: 0 <= i < |g.outputImages| && g.outputImages[i].enhancedPrompt == EnhancedGroupPrompt(g) &&
        forall j :: 0 <= j < i ==> !Truthy(g.outputImages[j].enhancedPrompt)
  {
    var r := FindFirst(g.outputImages, EnhancedPromptOf);
    if r.Some? {
      assert EnhancedPromptOf(g.outputImages[r.value]) == g.outputImages[r.value].enhancedPrompt;
      assert forall j :: 0 <= j < r.value ==> !Truthy(EnhancedPromptOf(g.outputImages[j]));
    } else {
      assert forall j :: 0 <= j < |g.outputImages| ==> !Truthy(EnhancedPromptOf(g.outputImages[j]));
    }
  }

  /** The two header prompts are chosen independently: they may come from
      different output images. */
  lemma PromptsMayComeFromDifferentImages()
    ensures var g := Group(7, "a@b.c", "a", 0, 2, [],
              [Image(None, "done", Some("cat"), None), Image(None, "done", None, Some("a cat"))]);
            GroupPrompt(g) == Some("cat") && EnhancedGroupPrompt(g) == Some("a cat")
  {
    var imgs := [Image(None, "done", Some("cat"), None), Image(None, "done", None, Some("a cat"))];
    assert FindFirst(imgs, PromptOf) == Some(0);
    assert FindFirst(imgs[1..], EnhancedPromptOf) == Some(0);
  }

  const ErrorLabel: string := "\U{26A0}\U{FE0F} Error"
  const ProcessingLabel: string := "\U{23F3} Processing"

  /** What one image tile draws: the picture, or a placeholder text. */
  datatype Tile = Picture(url: string) | Placeholder(text: string)

  /** The tile rule of `renderImages`: the picture when the url is truthy,
      otherwise an error or a processing placeholder depending on status. */
  function TileFor(img: Image): (t: Tile)
    ensures t.Picture? <==> Truthy(img.url)
    ensures t.Picture? ==> img.url == Some(t.url)
    ensures t == Placeholder(ErrorLabel) <==> !Truthy(img.url) && img.status == "error"
    ensures t == Placeholder(ProcessingLabel) <==> !Truthy(img.url) && img.status != "error"
  {
    if Truthy(img.url) then Picture(img.url.value)
    else if img.status == "error" then Placeholder(ErrorLabel)
    else Placeholder(ProcessingLabel)
  }

  datatype SectionBody = NoImagesAvailable | Tiles(tiles: seq<Tile>)

  /** One titled image section: its count label and its body. */
  datatype Section = Section(title: string, count: nat, body: SectionBody)

  /** `renderImages(title, images)`. */
  function RenderImages(title: string, images: seq<Image>): (s: Section)
    ensures s.title == title && s.count == |images|
    ensures s.body.NoImagesAvailable? <==> images == []
    ensures s.body.Tiles? ==> |s.body.tiles| == |images|
    ensures s.body.Tiles? ==> forall i :: 0 <= i < |images| ==> s.body.tiles[i] == TileFor(images[i])
  {
    if |images| == 0 then Section(title, 0, NoImagesAvailable)
    else Section(title, |images|, Tiles(seq(|images|, i requires 0 <= i < |images| => TileFor(images[i]))))
  }

  /** The collapsible body of the card. */
  datatype Content = Content(inputs: Section, divider: bool, outputs: Section)

  function CardContent(g: Group): (c: Content)
    ensures c.divider <==> g.outputImages != []
    ensures c.inputs == RenderImages("Input Images", g.inputImages)
    ensures c.outputs == RenderImages("Generated Images", g.outputImages)
  {
    Content(
      RenderImages("Input Images", g.inputImages),
      |g.outputImages| > 0,
      RenderImages("Generated Images", g.outputImages))
  }

  /** Where a click inside the open modal lands. */
  datatype ModalTarget = Backdrop | ImageFrame

  /** One rendered group card and its local state. */
  class Card {
    const group: Group
    var expanded: bool
    var modalImage: Option<string>

    /** The modal only ever holds a url that was truthy when clicked. */
    ghost predicate Valid()
      reads this
    {
      modalImage.None? || Truthy(modalImage)
    }

    /** The full-size modal is shown. */
    predicate ModalOpen()
      reads this
    {
      Truthy(modalImage)
    }

    constructor (g: Group)
      ensures Valid() && group == g
      ensures !expanded && modalImage == None
    {
      group := g;
      expanded := false;
      modalImage := None;
    }

    /** A click on the header flips `expanded`. */
    method ClickHeader()
      requires Valid()
      modifies this
      ensures Valid()
      ensures expanded == !old(expanded) && modalImage == old(modalImage)
    {
      expanded := !expanded;
    }

    /** A click on a tile opens the modal on its url when that url is truthy
        and changes nothing otherwise. */
    method ClickTile(img: Image)
      requires Valid()
      requires img in group.inputImages || img in group.outputImages
      modifies this
      ensures Valid()
      ensures expanded == old(expanded)
      ensures Truthy(img.url) ==> modalImage == img.url && ModalOpen()
      ensures !Truthy(img.url) ==> modalImage == old(modalImage)
    {
      if Truthy(img.url) {
        modalImage := img.url;
      }
    }

    /** A click inside the open modal: the backdrop closes it, the image
        frame stops the click from reaching the backdrop. */
    method ClickModal(target: ModalTarget)
      requires Valid() && ModalOpen()
      modifies this
      ensures Valid()
      ensures expanded == old(expanded)
      ensures target == Backdrop ==> modalImage == None && !ModalOpen()
      ensures target == ImageFrame ==> modalImage == old(modalImage)
    {
      if target == Backdrop {
        modalImage := None;
      }
    }
  }

  /** Two header clicks give back the original `expanded`. */
  method ClickHeaderTwice(card: Card)
    requires card.Valid()
    modifies card
    ensures card.Valid()
    ensures card.expanded == old(card.expanded) && card.modalImage == old(card.modalImage)
  {
    card.ClickHeader();
    card.ClickHeader();
  }
}
