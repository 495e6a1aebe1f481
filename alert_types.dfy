/** The alert schema shared by the store, the toasts, the lists and the map
    overlays. */
module AlertTypes {
  import opened Wrappers
  import opened I18n

  /** `'red' | 'orange' | 'yellow'`. */
  datatype Severity = Red | Orange | Yellow

  /** Urgency order: yellow < orange < red. */
  function SeverityRank(s: Severity): (r: nat)
    ensures r <= 2
    ensures s == Yellow <==> r == 0
    ensures s == Red <==> r == 2
  {
    match s
    case Yellow => 0
    case Orange => 1
    case Red => 2
  }

  /** The string value of a severity. */
  function SeverityCode(s: Severity): string {
    match s
    case Red => "red"
    case Orange => "orange"
    case Yellow => "yellow"
  }

  datatype LatLng = LatLng(latitude: real, longitude: real)

  /** `Omit<AlertItem, 'id' | 'timestamp'>`: what a caller supplies to an add. */
  datatype AlertFields = AlertFields(
    title: I18nText,
    subtitle: Option<I18nText>,
    photoUri: Option<string>,
    severity: Severity,
    location: LatLng)

  /** One stored alert. */
  datatype AlertItem = AlertItem(
    id: string,
    title: I18nText,
    subtitle: Option<I18nText>,
    photoUri: Option<string>,
    severity: Severity,
    location: LatLng,
    timestamp: int)

  /** `{ id, timestamp, ...a }`. */
  function NewItem(id: string, timestamp: int, a: AlertFields): AlertItem {
    AlertItem(id, a.title, a.subtitle, a.photoUri, a.severity, a.location, timestamp)
  }
}
