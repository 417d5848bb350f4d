/** Python's `None`-or-value, as used for `AgentState.target` and for the
    waypoint an agent is heading for. */
module Optional {
  datatype Option<T> = None | Some(value: T)
}
