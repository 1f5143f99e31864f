/** The slide deck edited by the assistant's function calls: the record of one
    slide, the layout rules of `addSlide`, and the whole-deck replacements done
    by `addSlide`, `modifySlide`, `removeSlide` and the slug lookup of
    `navigateSlide`. */
module Slides {
  import opened Wrappers

  /** The layouts a slide can use. Only the two named ones take part in the
      validation; `OtherTemplate` stands for every other layout name. */
  datatype SlideTemplate = TitleImageParagraph | TitleImageBullets | OtherTemplate(name: string)

  /** A slug as the parsed arguments carry it: left out, given as `null`, or
      a string. The component compares slugs only with `===` and `!==`, under
      which `null` and a missing value are different, so the two are kept
      apart here. */
  datatype Slug = Undefined | Null | Named(name: string)

  /** One slide, and also the arguments of every deck operation: the assistant
      may leave out any field, so each one is optional. */
  datatype SlideData = SlideData(
    slug: Slug,
    template: Option<SlideTemplate>,
    title: Option<string>,
    items: Option<seq<string>>,
    imageUrl: Option<string>,
    paragraph: Option<string>)

  /** The deck, in insertion (and rendering) order. */
  type Deck = seq<SlideData>

  /** `args.paragraph` is truthy: present and not the empty string. */
  predicate HasParagraph(s: SlideData) {
    s.paragraph.Some? && s.paragraph.value != ""
  }

  /** `args.items?.length` is truthy: a present list with at least one item. */
  predicate HasBulletItems(s: SlideData) {
    s.items.Some? && |s.items.value| > 0
  }

  /** The templates `addSlide` accepts a paragraph with, as the component lists
      them: the same layout twice. */
  const ParagraphTemplates: seq<SlideTemplate> := [TitleImageParagraph, TitleImageParagraph]

  /** `ParagraphTemplates.includes(template)`; an absent template is never included. */
  predicate AllowsParagraph(template: Option<SlideTemplate>) {
    template.Some? && template.value in ParagraphTemplates
  }

  /** The whitelist of two entries is, in effect, one equality test. */
  lemma ParagraphWhitelistIsOneTemplate(template: Option<SlideTemplate>)
    ensures AllowsParagraph(template) <==> template == Some(TitleImageParagraph)
  {
  }

  /** Why `addSlide` rejected its arguments, one kind per check, in check order. */
  datatype ValidationError = ParagraphWithItems | ParagraphTemplateRequired | BulletsTemplateRequired

  /** The text thrown for each rejection. */
  function Message(e: ValidationError): string {
    match e
    case ParagraphWithItems =>
      "Can't provide both paragraph and items - choose only one"
    case ParagraphTemplateRequired =>
      "If you add a paragraph of text, you need to pick a template that supports a paragraph"
    case BulletsTemplateRequired =>
      "If you add bullet items, you need to pick a template that supports bullets"
  }

  /** The layout invariant of a slide: a paragraph and a non-empty list of
      items exclude each other, a paragraph needs the paragraph layout and a
      list of items (even an empty one) needs the bullet layout. The first
      conjunct follows from the other two, since a slide cannot have both
      layouts; it is kept because `addSlide` makes that check first. */
  predicate LayoutConsistent(s: SlideData) {
    && !(HasParagraph(s) && HasBulletItems(s))
    && (HasParagraph(s) ==> s.template == Some(TitleImageParagraph))
    && (s.items.Some? ==> s.template == Some(TitleImageBullets))
  }

  /** Every slide of the deck satisfies the layout invariant. */
  predicate DeckConsistent(deck: Deck) {
    forall i :: 0 <= i < |deck| ==> LayoutConsistent(deck[i])
  }

  /** No two slides of the deck share a slug. */
  predicate UniqueSlugs(deck: Deck) {
    forall i, j :: 0 <= i < j < |deck| ==> deck[i].slug != deck[j].slug
  }

  /** Some slide of the deck has this slug. */
  predicate HasSlug(deck: Deck, slug: Slug) {
    exists i :: 0 <= i < |deck| && deck[i].slug == slug
  }

  /** The number of slides with this slug. */
  function SlugCount(deck: Deck, slug: Slug): (n: nat)
    ensures n <= |deck|
    ensures n == 0 <==> !HasSlug(deck, slug)
  {
    if deck == [] then 0
    else (if deck[0].slug == slug then 1 else 0) + SlugCount(deck[1..], slug)
  }

  /** `addSlide`: the three checks in the component's order, each of which
      rejects and leaves the deck alone; otherwise the arguments, copied field
      by field, become the last slide. No check is made on the slug. */
  function AddSlide(deck: Deck, args: SlideData): (r: Result<Deck, ValidationError>)
    ensures r.Ok? <==> LayoutConsistent(args)
    ensures r.Ok? ==> r.value == deck + [args]
  {
    if HasParagraph(args) && HasBulletItems(args) then Err(ParagraphWithItems)
    else if HasParagraph(args) && !AllowsParagraph(args.template) then Err(ParagraphTemplateRequired)
    else if args.items.Some? && args.template != Some(TitleImageBullets) then Err(BulletsTemplateRequired)
    else
      var slide := SlideData(args.slug, args.template, args.title, args.items, args.imageUrl, args.paragraph);
      Ok(deck + [slide])
  }

  /** The slide `modifySlide` puts in place of a slide whose slug matches:
      each field given in the arguments replaces the old one, each absent
      field keeps the old value, and the slug stays. */
  function Patched(slide: SlideData, args: SlideData): SlideData {
    slide.(
      title := args.title.OrElse(slide.title),
      items := args.items.OrElse(slide.items),
      template := args.template.OrElse(slide.template),
      imageUrl := args.imageUrl.OrElse(slide.imageUrl),
      paragraph := args.paragraph.OrElse(slide.paragraph))
  }

  /** `modifySlide`: the deck mapped slide by slide, patching every slide whose
      slug equals the argument's and keeping the others. */
  function ModifySlide(deck: Deck, args: SlideData): (r: Deck)
    ensures |r| == |deck|
    ensures forall i :: 0 <= i < |deck| ==>
      r[i] == (if deck[i].slug == args.slug then Patched(deck[i], args) else deck[i])
  {
    if deck == [] then []
    else
      var first := if deck[0].slug == args.slug then Patched(deck[0], args) else deck[0];
      [first] + ModifySlide(deck[1..], args)
  }

  /** `removeSlide`: the deck filtered to the slides whose slug differs. */
  function RemoveSlide(deck: Deck, slug: Slug): (r: Deck)
    ensures |r| == |deck| - SlugCount(deck, slug)
    ensures forall i :: 0 <= i < |r| ==> r[i].slug != slug
  {
    if deck == [] then []
    else if deck[0].slug == slug then RemoveSlide(deck[1..], slug)
    else [deck[0]] + RemoveSlide(deck[1..], slug)
  }

  /** `removeSlide` keeps exactly the slides whose slug differs: everything
      left was in the deck, and every slide with another slug is left. */
  lemma {:induction false} RemoveSlideMembers(deck: Deck, slug: Slug)
    ensures forall s :: s in RemoveSlide(deck, slug) <==> s in deck && s.slug != slug
  {
    if deck != [] {
      RemoveSlideMembers(deck[1..], slug);
      assert deck == [deck[0]] + deck[1..];
      if deck[0].slug != slug {
        assert RemoveSlide(deck, slug) == [deck[0]] + RemoveSlide(deck[1..], slug);
      }
    }
  }

  /** `findIndex` by slug, as `navigateSlide` does it: the position of the
      first slide with that slug, or -1 when there is none. */
  function FindSlideIndex(deck: Deck, slug: Slug): (r: int)
    ensures -1 <= r < |deck|
    ensures r >= 0 ==> deck[r].slug == slug && forall j :: 0 <= j < r ==> deck[j].slug != slug
    ensures r == -1 <==> !HasSlug(deck, slug)
  {
    if deck == [] then -1
    else if deck[0].slug == slug then 0
    else
      var k := FindSlideIndex(deck[1..], slug);
      if k == -1 then -1 else k + 1
  }

  // ---------------------------------------------------------------------
  // addSlide

  /** The rejections of `addSlide`, each with the error of the first check
      that fails; a rejection leaves the deck as it was. */
  lemma AddSlideRejects(deck: Deck, args: SlideData)
    ensures HasParagraph(args) && HasBulletItems(args) ==>
      AddSlide(deck, args) == Err(ParagraphWithItems)
    ensures HasParagraph(args) && !HasBulletItems(args) && args.template != Some(TitleImageParagraph) ==>
      AddSlide(deck, args) == Err(ParagraphTemplateRequired)
    ensures
      && (HasParagraph(args) ==> !HasBulletItems(args) && args.template == Some(TitleImageParagraph))
      && args.items.Some?
      && args.template != Some(TitleImageBullets)
      ==> AddSlide(deck, args) == Err(BulletsTemplateRequired)
  {
    ParagraphWhitelistIsOneTemplate(args.template);
  }

  /** The slug counts of two decks laid end to end add up. */
  lemma {:induction false} SlugCountAppend(a: Deck, b: Deck, slug: Slug)
    ensures SlugCount(a + b, slug) == SlugCount(a, slug) + SlugCount(b, slug)
  {
    if a == [] {
      assert a + b == b;
    } else {
      assert (a + b)[1..] == a[1..] + b;
      SlugCountAppend(a[1..], b, slug);
    }
  }

  /** An accepted `addSlide` keeps every old slide in place and puts exactly
      one new slide, equal to the arguments, at the end; a slug already in the
      deck is accepted, and lookups of it still find the older slide. */
  lemma AddSlideAppends(deck: Deck, args: SlideData)
    requires LayoutConsistent(args)
    ensures AddSlide(deck, args).Ok?
    ensures var d := AddSlide(deck, args).value;
      && |d| == |deck| + 1
      && d[..|deck|] == deck
      && d[|deck|] == args
      && SlugCount(d, args.slug) == SlugCount(deck, args.slug) + 1
      && FindSlideIndex(d, args.slug) == (if HasSlug(deck, args.slug) then FindSlideIndex(deck, args.slug) else |deck|)
  {
    var d := deck + [args];
    SlugCountAppend(deck, [args], args.slug);
    assert [args][1..] == [];
    var k := FindSlideIndex(d, args.slug);
    if HasSlug(deck, args.slug) {
      var k0 := FindSlideIndex(deck, args.slug);
      assert d[k0] == deck[k0];
      assert k <= k0;
      assert k < |deck| ==> d[k] == deck[k];
    } else {
      assert d[|deck|].slug == args.slug;
    }
  }

  /** A slug that is new to the deck keeps the slugs unique; one that is
      already there (which `addSlide` accepts) breaks uniqueness. */
  lemma AddSlideUniqueness(deck: Deck, args: SlideData)
    requires LayoutConsistent(args) && UniqueSlugs(deck)
    ensures UniqueSlugs(AddSlide(deck, args).value) <==> !HasSlug(deck, args.slug)
  {
    var d := AddSlide(deck, args).value;
    if HasSlug(deck, args.slug) {
      var i :| 0 <= i < |deck| && deck[i].slug == args.slug;
      assert d[i].slug == d[|deck|].slug;
    }
  }

  /** Accepted slides satisfy the layout invariant, so `addSlide` keeps it for
      the whole deck. */
  lemma AddSlideKeepsLayout(deck: Deck, args: SlideData)
    requires DeckConsistent(deck)
    ensures AddSlide(deck, args).Ok? ==> DeckConsistent(AddSlide(deck, args).value)
  {
    if AddSlide(deck, args).Ok? {
      var d := AddSlide(deck, args).value;
      forall i | 0 <= i < |d| ensures LayoutConsistent(d[i]) {
        if i < |deck| { assert d[i] == deck[i]; }
      }
    }
  }

  // ---------------------------------------------------------------------
  // modifySlide

  /** Where no slide has the slug, `modifySlide` gives back the same deck. */
  lemma {:induction false} ModifyAbsentSlug(deck: Deck, args: SlideData)
    requires !HasSlug(deck, args.slug)
    ensures ModifySlide(deck, args) == deck
  {
    if deck != [] {
      assert !HasSlug(deck[1..], args.slug) by {
        forall j | 0 <= j < |deck[1..]| ensures deck[1..][j].slug != args.slug {
          assert deck[1..][j] == deck[j + 1];
        }
      }
      ModifyAbsentSlug(deck[1..], args);
    }
  }

  /** Two decks whose slugs agree position by position give every slug
      lookup the same answer. */
  lemma {:induction false} SameSlugsSameIndex(a: Deck, b: Deck, slug: Slug)
    requires |a| == |b|
    requires forall i :: 0 <= i < |a| ==> a[i].slug == b[i].slug
    ensures FindSlideIndex(a, slug) == FindSlideIndex(b, slug)
  {
    if a != [] {
      assert forall i :: 0 <= i < |a[1..]| ==> a[1..][i].slug == b[1..][i].slug by {
        forall i | 0 <= i < |a[1..]| ensures a[1..][i].slug == b[1..][i].slug {
          assert a[1..][i] == a[i + 1] && b[1..][i] == b[i + 1];
        }
      }
      SameSlugsSameIndex(a[1..], b[1..], slug);
    }
  }

  /** `modifySlide` keeps every slug in its place, so it keeps uniqueness and
      every slug lookup. */
  lemma ModifyKeepsSlugs(deck: Deck, args: SlideData, slug: Slug)
    ensures forall i :: 0 <= i < |deck| ==> ModifySlide(deck, args)[i].slug == deck[i].slug
    ensures FindSlideIndex(ModifySlide(deck, args), slug) == FindSlideIndex(deck, slug)
    ensures UniqueSlugs(deck) ==> UniqueSlugs(ModifySlide(deck, args))
  {
    var d := ModifySlide(deck, args);
    assert forall i :: 0 <= i < |deck| ==> d[i].slug == deck[i].slug;
    SameSlugsSameIndex(d, deck, slug);
  }

  /** Modifying a slide twice with the same arguments is the same as once. */
  lemma ModifyIdempotent(deck: Deck, args: SlideData)
    ensures ModifySlide(ModifySlide(deck, args), args) == ModifySlide(deck, args)
  {
    var d := ModifySlide(deck, args);
    var dd := ModifySlide(d, args);
    forall i | 0 <= i < |deck| ensures dd[i] == d[i] {
      if deck[i].slug == args.slug {
        assert d[i] == Patched(deck[i], args);
      }
    }
  }

  /** On every matching slide, each of the five editable fields takes the
      argument's value when one is given and keeps its own otherwise; the
      slides with another slug do not change. */
  lemma ModifySlideFields(deck: Deck, args: SlideData, i: int)
    requires 0 <= i < |deck|
    ensures var s, s' := deck[i], ModifySlide(deck, args)[i];
      && (s.slug != args.slug ==> s' == s)
      && (s.slug == args.slug ==>
        && s'.slug == s.slug
        && s'.title == (if args.title.Some? then args.title else s.title)
        && s'.items == (if args.items.Some? then args.items else s.items)
        && s'.template == (if args.template.Some? then args.template else s.template)
        && s'.imageUrl == (if args.imageUrl.Some? then args.imageUrl else s.imageUrl)
        && s'.paragraph == (if args.paragraph.Some? then args.paragraph else s.paragraph))
  {
  }

  /** A call that names only a slug and a title changes the title of the
      matching slides and nothing else. */
  lemma ModifyTitleOnly(deck: Deck, slug: Slug, title: string)
    ensures var d := ModifySlide(deck, SlideData(slug, None, Some(title), None, None, None));
      && |d| == |deck|
      && forall i :: 0 <= i < |deck| ==>
        d[i] == (if deck[i].slug == slug then deck[i].(title := Some(title)) else deck[i])
  {
  }

  /** `modifySlide` does not re-validate: it can take a deck that satisfies
      the layout invariant to one that does not (a paragraph added to a
      slide with bullet items). */
  lemma ModifySkipsValidation()
    ensures var deck := [SlideData(Named("s"), Some(TitleImageBullets), None, Some(["a"]), None, None)];
      var args := SlideData(Named("s"), None, None, None, None, Some("text"));
      DeckConsistent(deck) && !DeckConsistent(ModifySlide(deck, args))
  {
    var deck := [SlideData(Named("s"), Some(TitleImageBullets), None, Some(["a"]), None, None)];
    var args := SlideData(Named("s"), None, None, None, None, Some("text"));
    assert ModifySlide(deck, args)[0] == Patched(deck[0], args);
  }

  // ---------------------------------------------------------------------
  // removeSlide

  /** Filtering a concatenation filters each part: together with the
      one-slide case this pins `removeSlide` down as the order-preserving
      filter. */
  lemma {:induction false} RemoveSlideAppend(a: Deck, b: Deck, slug: Slug)
    ensures RemoveSlide(a + b, slug) == RemoveSlide(a, slug) + RemoveSlide(b, slug)
  {
    if a == [] {
      assert a + b == b;
    } else {
      assert (a + b)[0] == a[0] && (a + b)[1..] == a[1..] + b;
      RemoveSlideAppend(a[1..], b, slug);
      var ra, rb := RemoveSlide(a[1..], slug), RemoveSlide(b, slug);
      if a[0].slug != slug {
        assert [a[0]] + (ra + rb) == [a[0]] + ra + rb;
      }
    }
  }

  /** Where no slide has the slug, `removeSlide` gives back the same deck. */
  lemma {:induction false} RemoveAbsentSlug(deck: Deck, slug: Slug)
    requires !HasSlug(deck, slug)
    ensures RemoveSlide(deck, slug) == deck
  {
    if deck != [] {
      assert deck == [deck[0]] + deck[1..];
      assert !HasSlug(deck[1..], slug) by {
        forall j | 0 <= j < |deck[1..]| ensures deck[1..][j].slug != slug {
          assert deck[1..][j] == deck[j + 1];
        }
      }
      RemoveAbsentSlug(deck[1..], slug);
    }
  }

  /** A slug given as `null` is not the same as one left out: removing the
      missing slug keeps a slide stored with a `null` slug, and a lookup of
      the missing slug does not find it. */
  lemma NullSlugIsNotMissing(s: SlideData)
    requires s.slug == Null
    ensures RemoveSlide([s], Undefined) == [s]
    ensures FindSlideIndex([s], Undefined) == -1
    ensures ModifySlide([s], SlideData(Undefined, None, Some("t"), None, None, None)) == [s]
  {
    assert [s][1..] == [];
  }

  /** After `removeSlide` the slug is gone, and removing it again does nothing. */
  lemma RemoveIdempotent(deck: Deck, slug: Slug)
    ensures !HasSlug(RemoveSlide(deck, slug), slug)
    ensures RemoveSlide(RemoveSlide(deck, slug), slug) == RemoveSlide(deck, slug)
    ensures FindSlideIndex(RemoveSlide(deck, slug), slug) == -1
  {
    RemoveAbsentSlug(RemoveSlide(deck, slug), slug);
  }

  /** Behind slides that do not carry the slug, the search lands on the first
      slide that does, at the position right after them. */
  lemma {:induction false} FindAfterAbsent(a: Deck, b: Deck, slug: Slug)
    requires !HasSlug(a, slug) && b != [] && b[0].slug == slug
    ensures FindSlideIndex(a + b, slug) == |a|
  {
    if a != [] {
      assert (a + b)[0] == a[0] && (a + b)[1..] == a[1..] + b;
      assert !HasSlug(a[1..], slug) by {
        forall j | 0 <= j < |a[1..]| ensures a[1..][j].slug != slug {
          assert a[1..][j] == a[j + 1];
        }
      }
      FindAfterAbsent(a[1..], b, slug);
    } else {
      assert a + b == b;
    }
  }

  /** Removing slides cannot bring in a slug that was not there. */
  lemma NoSlugAfterRemove(deck: Deck, removed: Slug, slug: Slug)
    requires !HasSlug(deck, slug)
    ensures !HasSlug(RemoveSlide(deck, removed), slug)
  {
    var r := RemoveSlide(deck, removed);
    RemoveSlideMembers(deck, removed);
    forall i | 0 <= i < |r| ensures r[i].slug != slug {
      assert r[i] in r;
    }
  }

  /** Removing one slug moves the slide found for another slug forward by the
      number of removed slides in front of it: its index is unchanged exactly
      when none of them stood before it. */
  lemma RemoveShiftsIndex(deck: Deck, removed: Slug, slug: Slug)
    requires removed != slug
    ensures var k := FindSlideIndex(deck, slug);
      FindSlideIndex(RemoveSlide(deck, removed), slug)
        == (if k == -1 then -1 else k - SlugCount(deck[..k], removed))
  {
    var k := FindSlideIndex(deck, slug);
    if k == -1 {
      NoSlugAfterRemove(deck, removed, slug);
    } else {
      var front, back := deck[..k], deck[k..];
      assert deck == front + back;
      RemoveSlideAppend(front, back, removed);
      RemovedFrontClear(deck, removed, slug);
      RemovedBackStart(deck, removed, slug);
      FindAfterAbsent(RemoveSlide(front, removed), RemoveSlide(back, removed), slug);
    }
  }

  /** Nothing in front of the found slide carries the slug, before or after
      removal. */
  lemma RemovedFrontClear(deck: Deck, removed: Slug, slug: Slug)
    requires FindSlideIndex(deck, slug) >= 0
    ensures !HasSlug(RemoveSlide(deck[..FindSlideIndex(deck, slug)], removed), slug)
  {
    var k := FindSlideIndex(deck, slug);
    var front := deck[..k];
    assert !HasSlug(front, slug) by {
      forall j | 0 <= j < k ensures front[j].slug != slug {
        assert front[j] == deck[j];
      }
    }
    NoSlugAfterRemove(front, removed, slug);
  }

  /** From the found slide on, removal of another slug keeps that slide first. */
  lemma RemovedBackStart(deck: Deck, removed: Slug, slug: Slug)
    requires FindSlideIndex(deck, slug) >= 0 && removed != slug
    ensures var rb := RemoveSlide(deck[FindSlideIndex(deck, slug)..], removed);
      rb != [] && rb[0].slug == slug
  {
    var back := deck[FindSlideIndex(deck, slug)..];
    assert back == [back[0]] + back[1..];
  }

  /** Removing slides keeps the layout invariant and slug uniqueness. */
  lemma RemoveKeepsInvariants(deck: Deck, slug: Slug)
    ensures DeckConsistent(deck) ==> DeckConsistent(RemoveSlide(deck, slug))
    ensures UniqueSlugs(deck) ==> UniqueSlugs(RemoveSlide(deck, slug))
  {
    RemoveSlideMembers(deck, slug);
    RemoveKeepsUnique(deck, slug);
  }

  lemma {:induction false} RemoveKeepsUnique(deck: Deck, slug: Slug)
    ensures UniqueSlugs(deck) ==> UniqueSlugs(RemoveSlide(deck, slug))
  {
    if deck != [] && UniqueSlugs(deck) {
      var rest := RemoveSlide(deck[1..], slug);
      assert UniqueSlugs(deck[1..]) by {
        forall i, j | 0 <= i < j < |deck[1..]| ensures deck[1..][i].slug != deck[1..][j].slug {
          assert deck[1..][i] == deck[i + 1] && deck[1..][j] == deck[j + 1];
        }
      }
      RemoveKeepsUnique(deck[1..], slug);
      RemoveSlideMembers(deck[1..], slug);
      if deck[0].slug != slug {
        var r := [deck[0]] + rest;
        forall i, j | 0 <= i < j < |r| ensures r[i].slug != r[j].slug {
          if i == 0 {
            assert r[j] == rest[j - 1] && rest[j - 1] in deck[1..];
            var m :| 0 <= m < |deck[1..]| && deck[1..][m] == rest[j - 1];
            assert deck[m + 1] == rest[j - 1];
          } else {
            assert r[i] == rest[i - 1] && r[j] == rest[j - 1];
          }
        }
      }
    }
  }
}
