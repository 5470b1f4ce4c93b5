/** Record shapes shared by the client components (the declarations of types.ts). */
module Domain {
  import opened Wrappers

  /** The seven interface languages. */
  datatype Language = En | Sw | Ki | Luo | Luy | Kal | Maa

  /** The language's code as the client writes it ('en', 'sw', ...). */
  function Code(l: Language): (c: string)
    ensures |c| == 2 || |c| == 3
  {
    match l
    case En => "en"
    case Sw => "sw"
    case Ki => "ki"
    case Luo => "luo"
    case Luy => "luy"
    case Kal => "kal"
    case Maa => "maa"
  }

  /** Distinct languages have distinct codes. */
  lemma CodesDistinct(a: Language, b: Language)
    ensures Code(a) == Code(b) ==> a == b
  {
  }

  /** Calendar dates are day numbers; timestamps are milliseconds. */
  type Day = int

  datatype NotificationKind = System | Activity | Alert

  datatype AppNotification = AppNotification(
    id: string, title: string, message: string, timestamp: int,
    kind: NotificationKind, read: bool)

  datatype ToastKind = SuccessToast | ErrorToast | InfoToast

  datatype Toast = Toast(id: string, message: string, kind: ToastKind)

  datatype FarmRecord = FarmRecord(id: string, crop: string, quantity: real, date: Day,
                                   estimatedValue: Option<real>)

  datatype ExpenseRecord = ExpenseRecord(id: string, category: string, amount: real, date: Day)

  datatype FarmActivity = FarmActivity(
    id: string, activityType: string, date: Day, details: string,
    quantity: Option<string>, notes: Option<string>)

  datatype ReminderKind = Task | Purchase | Market | Weather

  datatype Reminder = Reminder(id: string, text: string, date: Day, completed: bool, kind: ReminderKind)

  datatype UserProfile = UserProfile(
    id: Option<string>, email: Option<string>, password: Option<string>,
    name: string, location: string, farmSize: string, soilType: string,
    waterSource: Option<string>, crops: seq<string>, profileImage: Option<string>)
}
