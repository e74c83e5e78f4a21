/** The records the application keeps in memory: offers and the user's cards. */
module Types {

  datatype Option<T> = None | Some(value: T)

  /** The outcome of an awaited call into the AI service: the parsed value,
      or the exception the `try` block catches. */
  datatype Response<T> = Delivered(value: T) | Failed(message: string)

  /** The closed enumeration of banks the application knows. */
  datatype Bank =
    | ICBC | CCB | ABC | BOC | CMB | COMM | PSBC | CITIC | CEB | HXB | CGB | PAB
    | SPDB | CIB | CMBC | HFB | CZB | CBHB | BOB | SHB | JSB | NBCB | NJCB | HSBC

  /** The string value of each enumeration member, which is what the user
      interface displays and what string templates interpolate. */
  function BankName(b: Bank): (name: string)
    ensures |name| == 4
  {
    match b
    case ICBC => "工商银行"
    case CCB => "建设银行"
    case ABC => "农业银行"
    case BOC => "中国银行"
    case CMB => "招商银行"
    case COMM => "交通银行"
    case PSBC => "邮储银行"
    case CITIC => "中信银行"
    case CEB => "光大银行"
    case HXB => "华夏银行"
    case CGB => "广发银行"
    case PAB => "平安银行"
    case SPDB => "浦发银行"
    case CIB => "兴业银行"
    case CMBC => "民生银行"
    case HFB => "恒丰银行"
    case CZB => "浙商银行"
    case CBHB => "渤海银行"
    case BOB => "北京银行"
    case SHB => "上海银行"
    case JSB => "江苏银行"
    case NBCB => "宁波银行"
    case NJCB => "南京银行"
    case HSBC => "汇丰银行"
  }

  /** Distinct banks have distinct display names, so comparing banks is
      comparing the enumeration's string values. */
  lemma BankNameInjective(a: Bank, b: Bank)
    requires BankName(a) == BankName(b)
    ensures a == b
  {
  }

  datatype Category = Lottery | Points | Cashback | Coupon

  /** The string literal of each category, as the code concatenates it. */
  function CategoryName(c: Category): string
  {
    match c
    case Lottery => "Lottery"
    case Points => "Points"
    case Cashback => "Cashback"
    case Coupon => "Coupon"
  }

  datatype Status = Active | Expired | Claimed

  /** One bank promotion. The expiry date stays the string the record carries;
      turning it into a day number is left to a parser passed to the feed
      filter. `isNew` is the flag synced records carry for the "NEW" badge. */
  datatype Offer = Offer(
    id: string,
    bank: Bank,
    title: string,
    searchKeyword: Option<string>,
    description: string,
    category: Category,
    status: Status,
    expiryDate: string,
    estimatedValue: nat,
    steps: seq<string>,
    isNew: bool)

  /** One card the user owns; the settings screen gives it `lastFour` and a
      `nickname`. */
  datatype UserCard = UserCard(id: string, bank: Bank, lastFour: string, nickname: string)
}
