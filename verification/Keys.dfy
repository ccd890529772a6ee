/** Names shared by every component: a Cluster is addressed by namespace and name. */
module Keys {
  datatype ClusterKey = ClusterKey(namespace: string, name: string)

  datatype Option<+T> = None | Some(value: T)
}
