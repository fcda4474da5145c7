/**
 * The gift detail modal of the christmas-shop page (service/Modal.js).
 *
 * Showing a gift's meta record sets the picture, fills the text panel with
 * the gift's category, name, description and one block per superpower
 * (its rating as five stars), and marks the page body as opened. Hiding
 * clears the mark; a click on the backdrop or on a close control hides.
 * The text panel is modelled by the values it displays, not by its HTML.
 */
module Modal {

  import opened Wrappers
  import Catalog

  /** A star of a rating: lit, or carrying the disabled style. */
  datatype Star = Lit | Dim

  /** Star i (0-based) is disabled when i + 1 > rating / 100, that is when 100 * (i + 1) > rating. */
  function StarAt(rating: int, i: int): Star
  {
    if 100 * (i + 1) > rating then Dim else Lit
  }

  /** The five stars #ratingToTemplate renders for a rating. */
  function Stars(rating: int): (r: seq<Star>)
    ensures |r| == 5
  {
    seq(5, i => StarAt(rating, i))
  }

  function LitCount(s: seq<Star>): nat
  {
    if s == [] then 0 else (if s[0] == Lit then 1 else 0) + LitCount(s[1..])
  }

  function Clamp(x: int, lo: int, hi: int): int
  {
    if x < lo then lo else if x > hi then hi else x
  }

  /** A sequence whose first k stars are lit and whose other stars are not has k lit stars. */
  lemma {:induction false} LitPrefixCount(s: seq<Star>, k: nat)
    requires k <= |s|
    requires forall i :: 0 <= i < |s| ==> (s[i] == Lit <==> i < k)
    ensures LitCount(s) == k
  {
    if s != [] {
      var k' := if k == 0 then 0 else k - 1;
      forall i | 0 <= i < |s[1..]| ensures s[1..][i] == Lit <==> i < k' {
        assert s[1..][i] == s[i + 1];
      }
      LitPrefixCount(s[1..], k');
    }
  }

  /**
   * The lit stars of a rating form a prefix whose length is the rating's
   * whole hundreds, clamped to 0..5.
   */
  lemma StarsShape(rating: int)
    ensures forall i :: 0 <= i < 5 ==> (Stars(rating)[i] == Lit <==> i < Clamp(rating / 100, 0, 5))
    ensures LitCount(Stars(rating)) == Clamp(rating / 100, 0, 5)
  {
    var k := Clamp(rating / 100, 0, 5);
    forall i | 0 <= i < 5 ensures Stars(rating)[i] == Lit <==> i < k {
      assert Stars(rating)[i] == StarAt(rating, i);
      assert 100 * (rating / 100) <= rating < 100 * (rating / 100) + 100;
    }
    LitPrefixCount(Stars(rating), k);
  }

  /** #ratingToTemplate: five stars, star i disabled when i + 1 exceeds the rating in hundreds. */
  method RatingToStars(rating: int) returns (stars: seq<Star>)
    ensures stars == Stars(rating)
  {
    stars := [];
    for i := 0 to 5
      invariant |stars| == i
      invariant forall j :: 0 <= j < i ==> stars[j] == StarAt(rating, j)
    {
      var isDisabled := 100 * (i + 1) > rating;
      stars := stars + [if isDisabled then Dim else Lit];
    }
  }

  /** One superpower as the panel shows it: its name, its rating and the rating's stars. */
  datatype SuperpowerBlock = SuperpowerBlock(superpower: string, rating: int, stars: seq<Star>)

  /** #superpowerToTemplate. */
  function SuperpowerToBlock(entry: (string, int)): SuperpowerBlock
  {
    SuperpowerBlock(entry.0, entry.1, Stars(entry.1))
  }

  /** The blocks of a list of superpower entries, in entry order. */
  function Blocks(entries: seq<(string, int)>): seq<SuperpowerBlock>
  {
    if entries == [] then [] else [SuperpowerToBlock(entries[0])] + Blocks(entries[1..])
  }

  /** Exactly one block per entry, the i-th block showing the i-th entry. */
  lemma {:induction false} BlocksPerEntry(entries: seq<(string, int)>)
    ensures |Blocks(entries)| == |entries|
    ensures forall i :: 0 <= i < |entries| ==>
      Blocks(entries)[i] == SuperpowerBlock(entries[i].0, entries[i].1, Stars(entries[i].1))
  {
    if entries != [] {
      BlocksPerEntry(entries[1..]);
      forall i | 1 <= i < |entries| ensures Blocks(entries)[i] == Blocks(entries[1..])[i - 1] {
      }
    }
  }

  /** #superpowersToTemplate: appends one block per entry, in entry order. */
  method SuperpowersToBlocks(entries: seq<(string, int)>) returns (blocks: seq<SuperpowerBlock>)
    ensures blocks == Blocks(entries)
  {
    blocks := [];
    for i := 0 to |entries|
      invariant blocks + Blocks(entries[i..]) == Blocks(entries)
    {
      assert entries[i..] == [entries[i]] + entries[i + 1..];
      var stars := RatingToStars(entries[i].1);
      blocks := blocks + [SuperpowerBlock(entries[i].0, entries[i].1, stars)];
    }
    assert entries[|entries|..] == [];
  }

  /** What the text panel shows for a meta record (#metaToTemplate). */
  datatype ModalText = ModalText(
    styleModifier: string, category: string, name: string, description: string,
    superpowers: seq<SuperpowerBlock>)

  function MetaToText(meta: Catalog.GiftMeta): ModalText
  {
    ModalText(meta.styleModifier, meta.gift.category, meta.gift.name, meta.gift.description,
              Blocks(meta.gift.superpowers.Entries()))
  }

  /** Where a click inside the modal lands. */
  datatype ModalClick = ModalClick(onBackdrop: bool, hasCloseClass: bool, parentHasCloseClass: bool)

  /** The click handler's decision: the backdrop itself, or a close control or its child. */
  predicate ClosesModal(click: ModalClick)
  {
    click.onBackdrop || click.hasCloseClass || click.parentHasCloseClass
  }

  class Modal {
    const hasModal: bool
    const hasPicture: bool
    const hasText: bool
    /** The page body carries the modal-opened class. */
    var isOpen: bool
    /** The picture's source; None while it is the page's own. */
    var pictureSrc: Option<string>
    /** The text panel's contents; None while they are the page's own. */
    var text: Option<ModalText>

    /**
     * Looks up the three elements. The body class is not touched: whether
     * the modal starts opened is up to the page's own markup.
     */
    constructor (hasModal: bool, hasPicture: bool, hasText: bool, openedInMarkup: bool)
      ensures this.hasModal == hasModal && this.hasPicture == hasPicture && this.hasText == hasText
      ensures isOpen == openedInMarkup && pictureSrc == None && text == None
    {
      this.hasModal := hasModal;
      this.hasPicture := hasPicture;
      this.hasText := hasText;
      isOpen := openedInMarkup;
      pictureSrc := None;
      text := None;
    }

    /**
     * show: without the picture or the text element nothing changes;
     * otherwise the gift is displayed and the modal opened.
     */
    method Show(meta: Catalog.GiftMeta)
      modifies this`isOpen, this`pictureSrc, this`text
      ensures !(hasPicture && hasText) ==>
        isOpen == old(isOpen) && pictureSrc == old(pictureSrc) && text == old(text)
      ensures hasPicture && hasText ==>
        isOpen && pictureSrc == Some(meta.picture) && text == Some(MetaToText(meta))
    {
      if !hasPicture || !hasText {
        return;
      }
      pictureSrc := Some(meta.picture);
      var blocks := SuperpowersToBlocks(meta.gift.superpowers.Entries());
      text := Some(ModalText(meta.styleModifier, meta.gift.category, meta.gift.name, meta.gift.description, blocks));
      isOpen := true;
    }

    /** hide: the modal is closed, whatever it was. */
    method Hide()
      modifies this`isOpen
      ensures !isOpen
    {
      isOpen := false;
    }

    /**
     * #clickHandler: hides on a closing click, leaves everything alone
     * otherwise. It is only attached when the modal element exists.
     */
    method ClickHandler(click: ModalClick)
      requires hasModal
      modifies this`isOpen
      ensures isOpen == (old(isOpen) && !ClosesModal(click))
    {
      var isClickedBackdrop := click.onBackdrop;
      var isClickedClose := click.hasCloseClass || click.parentHasCloseClass;
      if isClickedBackdrop || isClickedClose {
        Hide();
      }
    }
  }
}
