/** The VibeLink landing page: the DIY kit cards with their checkout links,
    and the quote request form. */
module VibeLinkPage {
  import opened Wrappers
  import opened Strings
  import KitCheckout
  import opened Toasts

  datatype DiyKit = DiyKit(title: string, price: string, features: seq<string>, qrLink: string)

  const CurbAppealCard: DiyKit := DiyKit("Curb Appeal Starter", "$299",
    ["Landscape Design Guide", "Plant Selection List", "Lighting Setup"],
    "https://example.com/curb-appeal")

  const InteriorRefreshCard: DiyKit := DiyKit("Interior Refresh", "$399",
    ["Color Palette Guide", "Furniture Layout Tips", "Decor Checklist"],
    "https://example.com/interior-refresh")

  const FullMakeoverCard: DiyKit := DiyKit("Full Property Makeover", "$799",
    ["Complete Design Plan", "Contractor Contacts", "Budget Template"],
    "https://example.com/full-makeover")

  /** The `diyKits` cards, in page order. */
  const DiyKits: seq<DiyKit> := [CurbAppealCard, InteriorRefreshCard, FullMakeoverCard]

  /** `qrLink.split('/').pop()`. */
  function CheckoutSlug(qrLink: string): (slug: string)
    ensures '/' !in slug
  {
    Last(Split(qrLink, '/'))
  }

  /** The slug is the part of the link after its last `/`, or the whole link
      when it has none. */
  lemma CheckoutSlugIsLastSegment(qrLink: string)
    ensures var slug := CheckoutSlug(qrLink);
      && |slug| <= |qrLink|
      && qrLink[|qrLink| - |slug|..] == slug
      && (slug == qrLink <==> '/' !in qrLink)
      && (|slug| < |qrLink| ==> qrLink[|qrLink| - |slug| - 1] == '/')
  {
    var ws := Split(qrLink, '/');
    JoinSplit(qrLink, '/');
    if '/' !in qrLink {
      SplitNoSep(qrLink, '/');
    }
    if |ws| >= 2 {
      JoinLast(ws, '/');
      var head := Join(ws[..|ws| - 1], '/');
      assert qrLink == head + ['/'] + Last(ws);
      assert qrLink[|head|] == '/';
    }
  }

  /** The checkout route with its `kit` query parameter, before the value. */
  const CheckoutPath: string := "/vibelink/checkout?kit="

  /** The link of a kit card's "Purchase Kit" button: the checkout route
      whose `kit` parameter is the card's slug, a value free of `/`. */
  function CheckoutLink(kit: DiyKit): (link: string)
    ensures |CheckoutPath| <= |link| && link[..|CheckoutPath|] == CheckoutPath
    ensures link[|CheckoutPath|..] == CheckoutSlug(kit.qrLink)
    ensures '/' !in link[|CheckoutPath|..]
  {
    CheckoutPath + CheckoutSlug(kit.qrLink)
  }

  /** The slug of a link `host/w` with `w` free of `/` is `w`. */
  lemma SlugAfterHost(host: string, w: string, link: string)
    requires '/' !in w && link == host + ['/'] + w
    ensures CheckoutSlug(link) == w
  {
    SplitLastSegment(host, w, '/');
  }

  /** Each card's slug is the last segment of its link. */
  lemma CurbAppealSlug()
    ensures CheckoutSlug(CurbAppealCard.qrLink) == "curb-appeal"
  {
    assert CurbAppealCard.qrLink == "https://example.com" + ['/'] + "curb-appeal";
    SlugAfterHost("https://example.com", "curb-appeal", CurbAppealCard.qrLink);
  }

  lemma InteriorRefreshSlug()
    ensures CheckoutSlug(InteriorRefreshCard.qrLink) == "interior-refresh"
  {
    assert InteriorRefreshCard.qrLink == "https://example.com" + ['/'] + "interior-refresh";
    SlugAfterHost("https://example.com", "interior-refresh", InteriorRefreshCard.qrLink);
  }

  lemma FullMakeoverSlug()
    ensures CheckoutSlug(FullMakeoverCard.qrLink) == "full-makeover"
  {
    assert FullMakeoverCard.qrLink == "https://example.com" + ['/'] + "full-makeover";
    SlugAfterHost("https://example.com", "full-makeover", FullMakeoverCard.qrLink);
  }

  /** A card leads to a checkout entry with its title and price, whose
      features extend the card's (the checkout lists one feature more), and
      the checkout page selects that entry, by the lookup as written and by
      the corrected one alike. */
  predicate ReachesCheckout(card: DiyKit, slug: string)
  {
    && slug in KitCheckout.Kits
    && KitCheckout.SelectKitAsWritten(KitCheckout.KitId(Some(slug))) == KitCheckout.OwnEntry(KitCheckout.Kits[slug])
    && KitCheckout.SelectKit(KitCheckout.KitId(Some(slug))) == KitCheckout.Kits[slug]
    && KitCheckout.Kits[slug].title == card.title
    && KitCheckout.Kits[slug].price == card.price
    && card.features <= KitCheckout.Kits[slug].features
  }

  lemma CurbAppealEntry()
    ensures ReachesCheckout(CurbAppealCard, "curb-appeal")
  {
  }

  lemma CurbAppealReachesCheckout()
    ensures ReachesCheckout(CurbAppealCard, CheckoutSlug(CurbAppealCard.qrLink))
  {
    var slug := CheckoutSlug(CurbAppealCard.qrLink);
    CurbAppealSlug();
    assert slug == "curb-appeal";
    CurbAppealEntry();
  }

  lemma InteriorRefreshEntry()
    ensures ReachesCheckout(InteriorRefreshCard, "interior-refresh")
  {
  }

  lemma InteriorRefreshReachesCheckout()
    ensures ReachesCheckout(InteriorRefreshCard, CheckoutSlug(InteriorRefreshCard.qrLink))
  {
    var slug := CheckoutSlug(InteriorRefreshCard.qrLink);
    InteriorRefreshSlug();
    assert slug == "interior-refresh";
    InteriorRefreshEntry();
  }

  lemma FullMakeoverEntry()
    ensures ReachesCheckout(FullMakeoverCard, "full-makeover")
  {
  }

  lemma FullMakeoverReachesCheckout()
    ensures ReachesCheckout(FullMakeoverCard, CheckoutSlug(FullMakeoverCard.qrLink))
  {
    var slug := CheckoutSlug(FullMakeoverCard.qrLink);
    FullMakeoverSlug();
    assert slug == "full-makeover";
    FullMakeoverEntry();
  }

  /** Every card leads to its own entry of the checkout table. */
  lemma DiyKitsReachCheckout()
    ensures forall i :: 0 <= i < |DiyKits| ==> ReachesCheckout(DiyKits[i], CheckoutSlug(DiyKits[i].qrLink))
  {
    forall i | 0 <= i < |DiyKits|
      ensures ReachesCheckout(DiyKits[i], CheckoutSlug(DiyKits[i].qrLink))
    {
      var card := DiyKits[i];
      if i == 0 {
        assert card == CurbAppealCard;
        CurbAppealReachesCheckout();
      } else if i == 1 {
        assert card == InteriorRefreshCard;
        InteriorRefreshReachesCheckout();
      } else {
        assert card == FullMakeoverCard;
        FullMakeoverReachesCheckout();
      }
    }
  }

  /** The `kit` value of every card's "Purchase Kit" link opens the checkout
      on that card's own kit. */
  lemma CheckoutLinksReachCheckout()
    ensures forall i :: 0 <= i < |DiyKits| ==>
      ReachesCheckout(DiyKits[i], CheckoutLink(DiyKits[i])[|CheckoutPath|..])
  {
    DiyKitsReachCheckout();
  }

  datatype QuoteForm = QuoteForm(name: string, phone: string, zip: string, project: string, details: string)

  const EmptyQuote: QuoteForm := QuoteForm("", "", "", "", "")


  /** The quote request form and its submit flag. */
  class QuotePage {
    var isSubmitting: bool
    var form: QuoteForm

    constructor ()
      ensures !isSubmitting && form == EmptyQuote
    {
      isSubmitting := false;
      form := EmptyQuote;
    }

    /** An input's `onChange`. */
    method EditForm(newForm: QuoteForm)
      modifies this`form
      ensures form == newForm
    {
      form := newForm;
    }

    /** The start of `handleSubmit` (the submit button is disabled meanwhile). */
    method StartSubmit()
      requires !isSubmitting
      modifies this`isSubmitting
      ensures isSubmitting && form == old(form)
    {
      isSubmitting := true;
    }

    /** The end of `handleSubmit`: on success all five fields are cleared;
        either way submitting ends. */
    method FinishSubmit(succeeded: bool) returns (toast: Toast)
      requires isSubmitting
      modifies this`isSubmitting, this`form
      ensures !isSubmitting
      ensures succeeded ==> (form == EmptyQuote &&
        toast == Toast("Quote Request Submitted! 🎉", "We'll contact you within 24 hours with your custom quote.", false))
      ensures !succeeded ==> (form == old(form) &&
        toast == Toast("Submission Failed", "Please try again or contact support.", true))
    {
      if succeeded {
        toast := Toast("Quote Request Submitted! 🎉", "We'll contact you within 24 hours with your custom quote.", false);
        form := EmptyQuote;
      } else {
        toast := Toast("Submission Failed", "Please try again or contact support.", true);
      }
      isSubmitting := false;
    }
  }
}
