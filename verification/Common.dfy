/** Types shared by the models of the schedd's components. */
module Common {

  datatype Option<+T> = None | Some(value: T)

  function One(b: bool): nat { if b then 1 else 0 }

  /** A job proc, "cluster.proc". */
  datatype JobId = JobId(cluster: int, proc: int)
}
