/** The serialisable form of a net (persist/topology.go), over some representation C of the
    configurations a transition carries. */
module Topologies {
  import opened Wrappers

  datatype PlaceT = PlaceT(id: string, color: string, space: string)

  datatype TransitionT<C> = TransitionT(
    id: string, kind: string, inputPlaces: seq<string>, outputPlaces: seq<string>, errorPlace: string,
    guardFunc: string, executorFunc: string, factoryFunc: string, systemPrompt: string, toolName: string,
    observedCpnId: string, eventFilterFunc: string, retryOnFunc: string, llmTools: seq<string>,
    configs: C, subNet: Option<TopologyT<C>>)

  datatype TopologyT<C> = TopologyT(id: string, role: string, depth: int, mode: string,
                                    places: map<string, PlaceT>, transitions: map<string, TransitionT<C>>)
}
