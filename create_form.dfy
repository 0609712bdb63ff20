/**
 * The campaign creation form: its fields, the dropped image, the busy flag and
 * `handleMint`, which validates the form, rejects a deadline that is not in a
 * later second than now, pins the image and only then submits the campaign.
 */
module CreateForm {
  import opened Wrappers
  import opened Yocto
  import opened Clock
  import opened IndexPage

  const INCOMPLETE_ALERT: string := "Please complete all fields"
  const PAST_DEADLINE_ALERT: string := "Deadline must be in the future."

  class Form {
    var file: Option<FileRef>
    var name: string
    var description: string
    var targetAmount: string
    var deadline: string
    var isCreating: bool
    /** The `alert` messages shown, oldest first. */
    var alerts: seq<string>

    /** An empty form, not busy. */
    constructor ()
      ensures file == None && name == "" && description == "" && targetAmount == "" && deadline == ""
      ensures !isCreating && alerts == []
    {
      file := None;
      name := "";
      description := "";
      targetAmount := "";
      deadline := "";
      isCreating := false;
      alerts := [];
    }

    /** Every field is filled in: JavaScript's truthiness of the file and the four strings. */
    predicate Complete(): (r: bool)
      reads this
      ensures r ==> file.Some?
      ensures name == "" || description == "" || targetAmount == "" || deadline == "" ==> !r
      ensures file.Some? && name != "" && description != "" && targetAmount != "" && deadline != "" ==> r
    {
      file.Some? && name != "" && description != "" && targetAmount != "" && deadline != ""
    }

    /** The drop zone's `onDrop`: the first accepted file, or none. */
    method Drop(accepted: seq<FileRef>)
      modifies this`file
      ensures file == if |accepted| > 0 then Some(accepted[0]) else None
    {
      file := if |accepted| > 0 then Some(accepted[0]) else None;
    }

    /** `clearImage` */
    method ClearImage()
      modifies this`file
      ensures file == None
    {
      file := None;
    }

    /**
     * `handleMint`, given the clock reading `nowMs`, the entered deadline as
     * `new Date(deadline).getTime()` milliseconds, and the outcomes of the
     * upload and the ledger call.
     *
     * An incomplete form only raises an alert. Otherwise the form is busy until
     * the end of the run. A deadline whose second is not after the current
     * second raises an alert before any call. Otherwise the image is uploaded
     * exactly once and, only if that succeeds, the campaign is submitted once
     * with the deadline at the start of its second in nanoseconds; the image is
     * then cleared whatever the ledger answered, because `createFund` catches
     * its own failures. A failed upload keeps the image.
     */
    method HandleMint(page: Page, nowMs: int, deadlineMs: int, pin: PinOutcome, ledger: CallOutcome)
      modifies this`isCreating, this`file, this`alerts, page
      ensures !old(Complete()) ==>
        && alerts == old(alerts) + [INCOMPLETE_ALERT]
        && isCreating == old(isCreating) && file == old(file)
        && unchanged(page)
      ensures old(Complete()) ==> !isCreating
      ensures old(Complete()) && WholeSeconds(deadlineMs) <= WholeSeconds(nowMs) ==>
        && alerts == old(alerts) + [PAST_DEADLINE_ALERT]
        && file == old(file)
        && unchanged(page)
      ensures old(Complete()) && WholeSeconds(deadlineMs) > WholeSeconds(nowMs) ==>
        && alerts == old(alerts)
        && page.calls == old(page.calls) + [PinFile(old(file).value)]
             + (if pin.Pinned?
                then [CreateCampaignCall(GATEWAY_PREFIX + pin.ipfsHash, name, description, targetAmount,
                                         SecondNanos(deadlineMs), CREATION_FEE)]
                else [])
        && file == (if pin.Pinned? then None else old(file))
        && page.shouldFetchData == (if pin.Pinned? && ledger.Succeeded? then true else old(page.shouldFetchData))
        && page.route == (if pin.Pinned? && ledger.Succeeded? then "explore" else old(page.route))
        && page.campaigns == old(page.campaigns) && page.isLoading == old(page.isLoading)
        && page.connected == old(page.connected) && page.signedAccountId == old(page.signedAccountId)
    {
      if !Complete() {
        alerts := alerts + [INCOMPLETE_ALERT];
        return;
      }
      isCreating := true;
      var now := WholeSeconds(nowMs);
      var deadlineSec := WholeSeconds(deadlineMs);
      var deadlineNano := deadlineSec * NS_PER_SECOND;
      if deadlineSec <= now {
        alerts := alerts + [PAST_DEADLINE_ALERT];
        isCreating := false;
        return;
      }
      var image := page.UploadToPinata(file, pin);
      if image.Some? {
        page.CreateFund(image.value, name, description, targetAmount, deadlineNano, ledger);
        ClearImage();
      }
      isCreating := false;
    }
  }
}
