/**
 Short links to resources whose own modules are not part of this model
 (builds and queue items).  Each is kept to the fields a job refers to, and
 resolving one is the business of those modules.
 */
module Links {

  /** A short build as it appears in a job's build lists. */
  datatype ShortBuild = ShortBuild(url: string, number: nat)

  /** The queue item of a job that is waiting to be built. */
  datatype ShortQueueItem = ShortQueueItem(url: string)
}
