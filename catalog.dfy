/**
 * The landing page's catalog renderer (static/js/index.js): a fixed,
 * ordered catalog of detectors, one card per entry appended to the grid, and
 * the count of detectors whose status is "ready".
 */
module Catalog {
  import opened Wrappers

  /** One entry of the catalog; `id` is the key it is stored under. */
  datatype Descriptor = Descriptor(id: string, name: string, description: string, status: string, link: string)

  /** The shipped catalog, in the object's iteration (insertion) order. */
  const CancerTypes: seq<Descriptor> := [
    Descriptor("brain_tumor", "Brain Tumor",
               "Detection of brain tumors from MRI scans using deep learning",
               "ready", "https://brain--tumor.streamlit.app/"),
    Descriptor("lymphoma_cancer", "Lymphoma Cancer",
               "Classification of lymphoma cancer from medical images",
               "ready", "https://lymphoma-cancer.streamlit.app/"),
    Descriptor("oral_cancer", "Oral Cancer",
               "Early detection of oral cancer from clinical images",
               "ready", "https://oral--cancer.streamlit.app/"),
    Descriptor("cervical_cancer", "Cervical Cancer",
               "Cervical cancer screening from pap smear images",
               "ready", "https://cervical.streamlit.app/"),
    Descriptor("breast_cancer", "Breast Cancer",
               "Breast cancer detection from mammography and ultrasound images",
               "ready", "https://breast-cancer-he.streamlit.app/"),
    Descriptor("lung_colon_cancer", "Lung & Colon Cancer",
               "Detection of lung and colon cancer from histopathology images",
               "ready", "https://lungcolon.streamlit.app/"),
    Descriptor("kidney_stone", "Kidney H&E",
               "Detection of kidney grade",
               "ready", "https://kidney-hande.streamlit.app/"),
    Descriptor("all_cancer", "All Cancer",
               "Multi-organ cancer detection from various medical images",
               "ready", "https://all-cancer.streamlit.app/")
  ]

  /** Entries are stored under distinct keys. */
  predicate DistinctIds(catalog: seq<Descriptor>)
  {
    forall i, j :: 0 <= i < j < |catalog| ==> catalog[i].id != catalog[j].id
  }

  lemma ShippedCatalogKeyed()
    ensures |CancerTypes| == 8 && DistinctIds(CancerTypes)
  {
  }

  const ReadyStatus: string := "ready"
  const ImageDirectory: string := "static/images/"
  const PlaceholderImage: string := "static/images/placeholder.png"

  datatype Badge = Badge(cssClass: string, text: string)

  /** A card's action: an outbound link opened in a new context, or a disabled button with no target. */
  datatype Action =
    | OutboundLink(href: string, target: string, rel: string, text: string)
    | DisabledButton(text: string)

  /** The card element: its classes, its data attributes and what its markup shows. */
  datatype Card = Card(
    className: string,
    dataCancer: string,
    dataStatus: string,
    badge: Badge,
    imageSource: string,
    imageFallback: string,
    imageAlt: string,
    title: string,
    description: string,
    action: Action)

  function IsReady(d: Descriptor): bool { d.status == ReadyStatus }

  /** The body of the loop in generateCancerCards, for one entry. */
  function CardFor(d: Descriptor): Card
  {
    var ready := IsReady(d);
    Card(
      "cancer-card " + (if ready then "available" else "unavailable"),
      d.id,
      d.status,
      Badge("status-badge " + d.status, if ready then "Ready" else "Coming Soon"),
      ImageDirectory + d.id + ".png",
      PlaceholderImage,
      d.name,
      d.name,
      d.description,
      if ready then OutboundLink(d.link, "_blank", "noopener noreferrer", "Start Detection")
      else DisabledButton("Coming Soon"))
  }

  /** The image the card ends up showing: its own, or the placeholder once loading that fails. */
  function ShownImage(card: Card, loadFailed: bool): string
  {
    if loadFailed then card.imageFallback else card.imageSource
  }

  /** The cards for a catalog, in catalog order. */
  function Cards(catalog: seq<Descriptor>): seq<Card>
  {
    seq(|catalog|, i requires 0 <= i < |catalog| => CardFor(catalog[i]))
  }

  /** One card per entry, in catalog order, carrying the entry's key and status. */
  lemma CardsFollowCatalog(catalog: seq<Descriptor>)
    ensures |Cards(catalog)| == |catalog|
    ensures forall i :: 0 <= i < |catalog| ==>
              Cards(catalog)[i].dataCancer == catalog[i].id && Cards(catalog)[i].dataStatus == catalog[i].status
              && Cards(catalog)[i].title == catalog[i].name
  {
  }

  /** Availability, badge and action are decided by the status alone. */
  lemma CardReflectsStatus(d: Descriptor)
    ensures CardFor(d).className == "cancer-card available" <==> d.status == "ready"
    ensures CardFor(d).className == "cancer-card unavailable" <==> d.status != "ready"
    ensures CardFor(d).badge.text == (if d.status == "ready" then "Ready" else "Coming Soon")
    ensures CardFor(d).action.OutboundLink? <==> d.status == "ready"
    ensures d.status == "ready" ==>
              CardFor(d).action == OutboundLink(d.link, "_blank", "noopener noreferrer", "Start Detection")
    ensures d.status != "ready" ==> CardFor(d).action == DisabledButton("Coming Soon")
    ensures CardFor(d).dataCancer == d.id && CardFor(d).dataStatus == d.status
  {
    if d.status == "ready" {
      assert "cancer-card " + "available" != "cancer-card unavailable";
    } else {
      assert ("cancer-card " + "unavailable")[12] != ("cancer-card available")[12];
    }
  }

  /** The image is keyed by id alone, with the placeholder as fallback. */
  lemma CardImageKeyedById(d: Descriptor, loadFailed: bool)
    ensures CardFor(d).imageSource == "static/images/" + d.id + ".png"
    ensures ShownImage(CardFor(d), loadFailed) ==
              if loadFailed then "static/images/placeholder.png" else "static/images/" + d.id + ".png"
  {
  }

  /** The entries whose status is "ready", in order: `filter(c => c.status === 'ready')`. */
  function ReadyEntries(catalog: seq<Descriptor>): (r: seq<Descriptor>)
    ensures |r| <= |catalog|
    ensures forall d :: d in r <==> d in catalog && d.status == "ready"
  {
    if catalog == [] then []
    else
      var rest := ReadyEntries(catalog[1..]);
      assert forall d :: d in catalog <==> d == catalog[0] || d in catalog[1..];
      if IsReady(catalog[0]) then [catalog[0]] + rest else rest
  }

  /** The number written into the summary element. */
  function ReadyModels(catalog: seq<Descriptor>): nat
  {
    |ReadyEntries(catalog)|
  }

  /** Number of cards in a grid marked available. */
  function AvailableCards(cards: seq<Card>): nat
  {
    if cards == [] then 0
    else (if cards[0].className == "cancer-card available" then 1 else 0) + AvailableCards(cards[1..])
  }

  /** The counter equals the number of cards rendered as available. */
  lemma {:induction false} ReadyModelsCountsAvailableCards(catalog: seq<Descriptor>)
    ensures ReadyModels(catalog) == AvailableCards(Cards(catalog))
  {
    if catalog != [] {
      ReadyModelsCountsAvailableCards(catalog[1..]);
      assert Cards(catalog)[1..] == Cards(catalog[1..]);
      CardReflectsStatus(catalog[0]);
    }
  }

  /** The counter reaches the catalog size exactly when every entry is ready. */
  lemma {:induction false} ReadyModelsFullIff(catalog: seq<Descriptor>)
    ensures ReadyModels(catalog) == |catalog| <==> forall i :: 0 <= i < |catalog| ==> catalog[i].status == "ready"
  {
    if catalog != [] {
      ReadyModelsFullIff(catalog[1..]);
      if forall i :: 0 <= i < |catalog| ==> catalog[i].status == "ready" {
        assert forall i :: 0 <= i < |catalog| - 1 ==> catalog[1..][i].status == "ready" by {
          forall i | 0 <= i < |catalog| - 1 ensures catalog[1..][i].status == "ready" {
            assert catalog[1..][i] == catalog[i + 1];
          }
        }
      } else if IsReady(catalog[0]) {
        var i :| 0 <= i < |catalog| && catalog[i].status != "ready";
        assert catalog[1..][i - 1] == catalog[i];
      }
    }
  }

  /** In the shipped catalog all eight detectors are ready, so the counter shows 8. */
  lemma ShippedReadyModels()
    ensures ReadyModels(CancerTypes) == 8
  {
    assert forall i :: 0 <= i < |CancerTypes| ==> CancerTypes[i].status == "ready" by {
      forall i | 0 <= i < |CancerTypes| ensures CancerTypes[i].status == "ready" {
        assert i in {0, 1, 2, 3, 4, 5, 6, 7};
      }
    }
    ReadyModelsFullIff(CancerTypes);
  }

  /** The landing page: the children of the card grid and the ready-models summary. */
  class LandingPage {
    var grid: seq<Card>
    var modelsReady: Option<nat>   // None until the summary element is written

    constructor ()
      ensures grid == [] && modelsReady == None
    {
      grid := [];
      modelsReady := None;
    }

    /** generateCancerCards: appends one card per entry, in catalog order, after what the grid held. */
    method GenerateCancerCards(catalog: seq<Descriptor>)
      modifies this
      ensures grid == old(grid) + Cards(catalog)
      ensures modelsReady == old(modelsReady)
    {
      for i := 0 to |catalog|
        invariant grid == old(grid) + Cards(catalog)[..i]
        invariant modelsReady == old(modelsReady)
      {
        grid := grid + [CardFor(catalog[i])];
      }
      assert Cards(catalog)[..|catalog|] == Cards(catalog);
    }

    /** The DOMContentLoaded handler: render the shipped catalog, then write the ready count. */
    method Initialize()
      modifies this
      ensures grid == old(grid) + Cards(CancerTypes)
      ensures modelsReady == Some(ReadyModels(CancerTypes)) && modelsReady == Some(8)
    {
      GenerateCancerCards(CancerTypes);
      modelsReady := Some(ReadyModels(CancerTypes));
      ShippedReadyModels();
    }
  }
}
