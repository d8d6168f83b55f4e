/**
 * Data shapes shared by the session store and the sign-in wizard
 * (src/types/index.ts). Only the fields the store and the wizard touch are
 * kept; the rest of a product, reward or distributor record is payload that
 * neither component inspects.
 */
module Types {

  datatype Option<+T> = None | Some(value: T)

  /** The two UI languages; the store's default is English. */
  datatype Language = En | Hi

  /** A signed-in end user, as the store holds it. */
  datatype User = User(
    id: string,
    name: string,
    mobile: string,
    pincode: string,
    state: string,
    district: string,
    cropPreferences: seq<string>,
    language: Language,
    isActive: bool,
    createdAt: string,
    lastLogin: string)

  datatype UserStats = UserStats(
    totalScans: int,
    couponsWon: int,
    rewardsClaimed: int,
    lastScanDate: Option<string>)

  datatype RewardStatus = Pending | Redeemed

  datatype Reward = Reward(
    id: string,
    couponCode: string,
    productName: string,
    status: RewardStatus,
    wonAt: string)

  datatype Product = Product(id: string, name: string, slug: string, isBestSeller: bool)

  datatype Distributor = Distributor(id: string, name: string, pincode: string)

  /** The administrator identity kept by the admin store. */
  datatype Admin = Admin(id: string, name: string, email: string, role: string)
}
