/** The user-visible messages of src/constants/text.ts and the job status strings of src/constants/api.ts. */
module Constants {

  // ERR_TEXT
  const ERR_EMPTY: string := "Can't be empty"
  const ERR_SERVER: string := "Server error, please try later."
  const ERR_SERVER_BUSY: string := "server busy, please try later."
  const ERR_OTHER: string := "Service unavailable. Try again later."

  // STATUS: the route job's status as the backend reports it
  const STATUS_SUCCESS: string := "success"
  const STATUS_BUSY: string := "in progress"
  const STATUS_FAIL: string := "failure"

  /** The four error messages are non-empty and pairwise distinct, so a message tells which error it reports. */
  lemma MessagesDistinct()
    ensures ERR_SERVER != ERR_OTHER && ERR_SERVER != ERR_SERVER_BUSY && ERR_OTHER != ERR_SERVER_BUSY
    ensures ERR_EMPTY != ERR_SERVER && ERR_EMPTY != ERR_OTHER && ERR_EMPTY != ERR_SERVER_BUSY
    ensures ERR_EMPTY != "" && ERR_SERVER != "" && ERR_OTHER != "" && ERR_SERVER_BUSY != ""
  {
  }

  /** The three statuses are pairwise distinct, so the branches on them are exclusive. */
  lemma StatusesDistinct()
    ensures STATUS_SUCCESS != STATUS_BUSY && STATUS_SUCCESS != STATUS_FAIL && STATUS_BUSY != STATUS_FAIL
  {
  }
}
