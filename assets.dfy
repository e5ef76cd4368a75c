/**
 * The wallet entities the services read: a catalogue product (card,
 * membership or gifticon) and a user's holding of one.
 */
module Assets {
  import opened Common

  datatype AssetType = CARD | MEMBERSHIP | GIFTICON
  {
    /** `AssetType.name()`. */
    function Name(): (s: string)
      ensures s != []
    {
      match this
      case CARD => "CARD"
      case MEMBERSHIP => "MEMBERSHIP"
      case GIFTICON => "GIFTICON"
    }
  }

  datatype GifticonStatus = ACTIVE | USED | EXPIRED

  /** A catalogue product; `brandName` is the name of the brand it references, when it references one. */
  datatype Product = Product(
    id: int,
    productType: AssetType,
    issuer: Option<string>,
    name: string,
    brandName: Option<string>)

  /** A user's card, membership or gifticon. Dates are epoch days. */
  datatype UserAsset = UserAsset(
    id: int,
    userId: int,
    product: Product,
    assetType: AssetType,
    gifticonStatus: Option<GifticonStatus>,
    balance: Option<int>,
    expiresAt: Option<int>)

  /** Rows with the same primary key are the same row. */
  predicate UniqueIds(assets: seq<UserAsset>)
  {
    forall i, j :: 0 <= i < |assets| && 0 <= j < |assets| && assets[i].id == assets[j].id ==> assets[i] == assets[j]
  }

  /** An asset of a unique-id list is the only one with its id before it. */
  lemma UniqueBefore(assets: seq<UserAsset>, i: nat)
    requires UniqueIds(assets) && i < |assets|
    ensures forall a :: a in assets[..i] && a.id == assets[i].id ==> a == assets[i]
  {
    forall a | a in assets[..i] && a.id == assets[i].id ensures a == assets[i] {
      var k :| 0 <= k < i && assets[..i][k] == a;
      assert assets[k] == a;
    }
  }

  /** Any selection of a user's assets keeps the one-row-per-id property. */
  lemma UniqueIdsOfPart(part: seq<UserAsset>, assets: seq<UserAsset>)
    requires UniqueIds(assets) && forall a :: a in part ==> a in assets
    ensures UniqueIds(part)
  {
    forall i, j | 0 <= i < |part| && 0 <= j < |part| && part[i].id == part[j].id ensures part[i] == part[j] {
      assert part[i] in assets && part[j] in assets;
      var p :| 0 <= p < |assets| && assets[p] == part[i];
      var q :| 0 <= q < |assets| && assets[q] == part[j];
    }
  }
}
