/**
 * `PackageInfo`: what one carrier lookup reports, a status with an optional
 * human-readable label and an optional delivery time in milliseconds.
 */
module Info {
  import opened Common
  import opened Status

  datatype PackageInfo = PackageInfo(status: PackageStatus, statusLabel: Option<string>, deliveryTime: Option<int>)

  /**
   * `new PackageInfo(status, label, deliveryTime)`, with `label` held in the
   * field statusLabel.  The status parameter defaults to UNAVAILABLE, and a
   * JavaScript default applies whenever the argument is `undefined`, so a
   * status lookup that found nothing also lands on UNAVAILABLE.
   */
  function NewPackageInfo(status: Option<PackageStatus>, statusLabel: Option<string>, deliveryTime: Option<int>): (r: PackageInfo)
    ensures status.Some? ==> r.status == status.value
    ensures status.None? ==> r.status == Unavailable
    ensures r.statusLabel == statusLabel && r.deliveryTime == deliveryTime
  {
    PackageInfo(status.GetOr(Unavailable), statusLabel, deliveryTime)
  }

  /** `new PackageInfo()`: the answer for every failed or refused lookup. */
  function Default(): (r: PackageInfo)
    ensures r.status == Unavailable && r.statusLabel.None? && r.deliveryTime.None?
  {
    NewPackageInfo(None, None, None)
  }

  /** `new PackageInfo(status)`: a status alone, with neither label nor time. */
  function StatusOnly(s: PackageStatus): (r: PackageInfo)
    ensures r.status == s && r.statusLabel.None? && r.deliveryTime.None?
  {
    NewPackageInfo(Some(s), None, None)
  }

  /** The constructor loses nothing it was given: the three fields give its arguments back. */
  lemma NewPackageInfoRoundTrip(i: PackageInfo)
    ensures NewPackageInfo(Some(i.status), i.statusLabel, i.deliveryTime) == i
  {
  }
}
