/** `callFunctionHandler`: the assistant names a function and passes slide
    arguments; each name replaces the deck as a whole, or asks the
    presentation to navigate, or is ignored. */
module FunctionCalls {
  import opened Wrappers
  import opened Slides

  /** What one call leaves behind: the deck that replaces the old one, the
      index handed to `goTo` (only `navigateSlide` calls it, with -1 for an
      unknown slug), and the text `addSlide` throws when it rejects. */
  datatype Dispatched = Dispatched(deck: Deck, goTo: Option<int>, thrown: Option<string>)

  /** The function names the dispatcher knows; any other is only logged. */
  const KnownFunctions: set<string> :=
    {"generateOutline", "addSlide", "modifySlide", "removeSlide", "navigateSlide"}

  /** One function call from the assistant, applied to the current deck. */
  function CallFunction(name: string, args: SlideData, deck: Deck): (r: Dispatched)
    ensures r.thrown.Some? ==>
      && name == "addSlide" && r.deck == deck && !LayoutConsistent(args)
      && r.thrown == Some(Message(AddSlide(deck, args).error))
    ensures r.goTo.Some? <==> name == "navigateSlide"
    ensures name == "navigateSlide" ==>
      r.deck == deck && r.goTo == Some(FindSlideIndex(deck, args.slug))
    ensures name !in KnownFunctions ==> r == Dispatched(deck, None, None)
  {
    if name == "generateOutline" then Dispatched([], None, None)
    else if name == "addSlide" then
      match AddSlide(deck, args)
      case Ok(d) => Dispatched(d, None, None)
      case Err(e) => Dispatched(deck, None, Some(Message(e)))
    else if name == "modifySlide" then Dispatched(ModifySlide(deck, args), None, None)
    else if name == "removeSlide" then Dispatched(RemoveSlide(deck, args.slug), None, None)
    else if name == "navigateSlide" then Dispatched(deck, Some(FindSlideIndex(deck, args.slug)), None)
    else Dispatched(deck, None, None)
  }

  /** The effect of each name on the deck: an outline resets it, a slide is
      appended or the deck kept with the rejection, matching slides are
      patched, matching slides are filtered out, and navigation keeps it. */
  lemma CallFunctionEffects(name: string, args: SlideData, deck: Deck)
    ensures var r := CallFunction(name, args, deck);
      && (name == "generateOutline" ==> r.deck == [] && r.thrown.None?)
      && (name == "addSlide" ==>
        if LayoutConsistent(args)
        then r.thrown.None? && |r.deck| == |deck| + 1 && r.deck[..|deck|] == deck && r.deck[|deck|] == args
        else r.thrown.Some? && r.deck == deck)
      && (name == "modifySlide" ==> r.deck == ModifySlide(deck, args) && r.thrown.None?)
      && (name == "removeSlide" ==> r.deck == RemoveSlide(deck, args.slug) && r.thrown.None?)
  {
    if name == "addSlide" && LayoutConsistent(args) {
      AddSlideAppends(deck, args);
    }
  }

  /** The text an `addSlide` call throws (see `Message`), for each check in
      the order the component makes them; a throw leaves the deck as it was. */
  lemma CallFunctionThrows(args: SlideData, deck: Deck)
    ensures var r := CallFunction("addSlide", args, deck);
      && (HasParagraph(args) && HasBulletItems(args) ==>
            r.thrown == Some(Message(ParagraphWithItems)))
      && (HasParagraph(args) && !HasBulletItems(args) && args.template != Some(TitleImageParagraph) ==>
            r.thrown == Some(Message(ParagraphTemplateRequired)))
      && (&& (HasParagraph(args) ==> !HasBulletItems(args) && args.template == Some(TitleImageParagraph))
          && args.items.Some?
          && args.template != Some(TitleImageBullets)
          ==> r.thrown == Some(Message(BulletsTemplateRequired)))
      && (r.thrown.Some? ==> r.deck == deck)
  {
    AddSlideRejects(deck, args);
    AddSlideCall(args, deck);
  }

  /** An `addSlide` call throws the message of the rejection and keeps the
      deck, or appends and throws nothing. */
  lemma AddSlideCall(args: SlideData, deck: Deck)
    ensures var r, a := CallFunction("addSlide", args, deck), AddSlide(deck, args);
      && (a.Err? ==> r.thrown == Some(Message(a.error)) && r.deck == deck)
      && (a.Ok? ==> r.thrown == None && r.deck == a.value)
  {
  }

  /** Every call except `modifySlide`, which does not re-validate, keeps the
      layout invariant of the deck. */
  lemma CallFunctionKeepsLayout(name: string, args: SlideData, deck: Deck)
    requires DeckConsistent(deck) && name != "modifySlide"
    ensures DeckConsistent(CallFunction(name, args, deck).deck)
  {
    AddSlideKeepsLayout(deck, args);
    RemoveKeepsInvariants(deck, args.slug);
  }

  /** Every call keeps the slugs unique, except an `addSlide` whose slug is
      already in the deck: the dispatcher accepts that duplicate. */
  lemma CallFunctionKeepsUniqueSlugs(name: string, args: SlideData, deck: Deck)
    requires UniqueSlugs(deck)
    ensures var r := CallFunction(name, args, deck);
      UniqueSlugs(r.deck) <==> !(name == "addSlide" && LayoutConsistent(args) && HasSlug(deck, args.slug))
  {
    if name == "addSlide" && LayoutConsistent(args) {
      AddSlideUniqueness(deck, args);
    }
    RemoveKeepsInvariants(deck, args.slug);
    ModifyKeepsSlugs(deck, args, args.slug);
  }
}
