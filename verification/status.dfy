/** The two status enumerations of the batch models and the progress policy over them. */
module Status {

  /** Status of a whole batch request (BatchRequestStatus). */
  datatype RequestStatus = Registering | Live | Done | Cancelled | Error

  /** Status of one domain inside a batch request (BatchDomainStatus). */
  datatype DomainStatus = Waiting | Running | Done | Error | Cancelled

  /** The statuses the progress count treats as finished: exactly `done` and `error`.
      A cancelled domain is not counted as finished. */
  predicate IsFinished(st: DomainStatus)
  {
    st == DomainStatus.Done || st == DomainStatus.Error
  }

}
