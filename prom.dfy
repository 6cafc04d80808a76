/**
 * The part of the Prometheus client the exporter is written against: a sample is a
 * metric name (the fully qualified name of its descriptor), its label values in the
 * descriptor's label order, and a value.
 */
module Prom {

  datatype Sample = Sample(name: string, labels: seq<string>, value: real)

  /** The `ref_work` samples: value 1 for an API reference that worked, labelled (ref, "GET"). */
  function RefSample(metric: string, ref: string): Sample
  {
    Sample(metric, [ref, "GET"], 1.0)
  }
}
