# SOA4CoRE service discovery, subscription and QoS negotiation, verified

A Dafny model of the parts of SOA4CoRE that decide who talks to whom and with which quality of service:

- **SOME/IP service discovery and subscription** (`Connectors`, `ConnectorGrowth`, `HostManager`, `SomeIp*`). A host's
  manager is a state machine over registrations, timers and arriving messages (`SomeIpNode`); the class
  `SomeIpManager.SomeIpManager` is the same manager in the program's own imperative form, proved to compute that state
  machine. `SomeIpTheorems` and `SomeIpOffers` hold what is true of every state one manager can reach,
  `SomeIpMessages` and `SomeIpEffects` what every event sends and changes, field by field, and that it does nothing
  else. `SomeIpHost` adds the discovery module that the manager's signals call, whose encoder may throw; `SomeIpAgreement`,
  `SomeIpRemotes`, `SomeIpDelivery`, `SomeIpHandshake` and `SomeIpSearch` say what is true of any number of such hosts on
  a network that loses, duplicates and reorders encoded messages.
- **QoS negotiation** (`QosBroker`, `QosProtocol`, `QosPending`). Brokers, the dispatcher that owns them, and the
  manager's pending requests. `QosEffects` says what each message does and `QosStatuses` what a request's status tells.
  `QosAgreement` proves agreement under any network, `QosCompletion` completion under a network that delivers each
  message once, and `QosStuck` why that asks for one open negotiation per pair.
- **The SD codec** (`SdHeader`, `SdCodec`, `SdNotification`, `SdRoundTrip`).
- **The processing time queue** (`ProcessingTimeSimulation`), **bandwidth reservation** (`Bandwidth`) and **UDP remotes**
  (`UdpPublisher`).

Objects that the program changes in place are classes whose methods are proved equal to functions on an abstract value
(`Abstract()`); the theorems are about those functions, over every run. What the program reports by throwing is the
`Err` of a `Result`.

Five results say that the code does less than its comments or the cited requirements suggest; the model follows the code.

- `SomeIpTheorems.OfferTriggersExactlyWhen`, `LostAckWedges` and `OfferedTwiceAsksOnce`: PRS_SOMEIPSD_00582 has cyclic
  offers trigger subscriptions, but an offer triggers one exactly when no request is unanswered, so one lost message
  wedges the subscription, as a run of three events shows.
- `SomeIpHost.HostThrowsExactlyWhen` and `UnencodableOfferThrows`: the manager accepts publishers that its discovery
  module cannot offer, such as one of the multicast group with the default address, and then throws when it offers them.
- `SomeIpDelivery.DeliveriesThrowExactlyWhen` and `EmptyOfferThrows`: the offer of a publisher without a group, which is
  the default, makes every host throw that it reaches. No other delivery throws.
- `Bandwidth.SplitFitsExactlyWhen`: the payload split divides integers before it rounds up, so its frames can exceed the
  largest frame, exactly when the stated condition fails.
- `QosHandshake.ResponseIsDroppedExactlyWhen` and `QosStuck.SecondNegotiationIsStuck`: a negotiation broker is chosen by
  endpoint pair alone, so with two negotiations for one pair a response is dropped and the second never completes; the
  completion theorem therefore asks for one open negotiation per pair, the agreement theorem does not.

## Model

| member | source | states |
|---|---|---|
| Base.InEnumOrderVisitsTheSet | src/soa4core/discovery/someip/SomeIpSD.cc:151-155 | walking an ordered set of groups visits exactly its members, each once, by ascending enumeration value |
| ProcessingTimeSimulation.SerialQueueFollowsTheRecurrence | src/soa4core/utility/processing/ProcessingTimeSimulation.cc:50-90 | without parallel processing, for every arrival sequence, message i is the i-th processed, at max(arrival, completion before) + processing time, with waiting time max(0, completion before - arrival), ties included |
| ProcessingTimeSimulation.ParallelQueueAddsAConstant | src/soa4core/utility/processing/ProcessingTimeSimulation.cc:79-90 | with parallel processing every message completes a processing time after it arrived and waits 0 |
| ProcessingTimeSimulation.NoMessageIsStranded | src/soa4core/utility/processing/ProcessingTimeSimulation.cc:41-90 | over any run, parameters changed at will, every accepted message is waiting, in service or processed exactly once, and waiting messages always have a service event ahead |
| ProcessingTimeSimulation.SerialCompletion | src/soa4core/utility/processing/ProcessingTimeSimulation.cc:64-73 | a completion keeps the serial invariant, with the next waiting message in service |
| ProcessingTimeSimulation.ProcessingTimeSimulation.Simulate | src/soa4core/utility/processing/ProcessingTimeSimulation.cc:79-90 | queues behind a busy server, otherwise schedules at once |
| ProcessingTimeSimulation.ProcessingTimeSimulation.HandleServiceEvent | src/soa4core/utility/processing/ProcessingTimeSimulation.cc:64-73 | completes the delivered event, records its waiting time and triggers the next |
| Bandwidth.NormalizedSizeIsLeast | src/soa4core/utility/comfortFunctions.cc:43-51 | n bytes per measurement interval suffice for a frame per interval exactly when n is at least the normalised size |
| Bandwidth.NormalizedSizeIsMonotone | src/soa4core/utility/comfortFunctions.cc:43-51 | longer frames and longer measurement intervals never need less |
| Bandwidth.RegistrationFailsExactlyWhen | src/soa4core/endpoints/publisher/ip/base/IPPublisherEndpointBase.cc:161-181 | registration throws exactly when the stream interval is not the measurement interval and the class B size is negative |
| Bandwidth.ClassAExactlyWhen | src/soa4core/endpoints/publisher/ip/base/IPPublisherEndpointBase.cc:161-183 | class A is taken exactly when the stream interval is the measurement interval or the class A size is not negative |
| Bandwidth.FramesOfTalker | src/soa4core/endpoints/publisher/ip/base/IPPublisherEndpointBase.cc:149-159 | the talker has one frame, or as many as the largest payload fits into the payload as a whole |
| Bandwidth.IntervalOfTalker | src/soa4core/endpoints/publisher/ip/base/IPPublisherEndpointBase.cc:161-183 | a talker carries the application's interval, and the full frame unnormalised, exactly when the stream interval is the measurement interval |
| Bandwidth.FullFrame | src/soa4core/endpoints/publisher/ip/base/IPPublisherEndpointBase.cc:140-160 | the full frame is header plus average payload plus what multicast adds, modulo 2^16 |
| Bandwidth.ClassAIsTaken | src/soa4core/endpoints/publisher/ip/base/IPPublisherEndpointBase.cc:161-183 | an endpoint for which both classes would do is registered in class A with 142 bytes |
| Bandwidth.ReservationIsExact | src/soa4core/endpoints/publisher/ip/base/IPPublisherEndpointBase.cc:149-184 | the registered size, for the class of ClassAExactlyWhen, never reserves a byte too much, and reserves enough exactly when it fits the 16 bits it is cast to |
| Bandwidth.SplitCoversPayload | src/soa4core/endpoints/publisher/ip/base/IPPublisherEndpointBase.cc:149-159 | frames times average payload miss less than a byte per frame, and the average is at least the largest payload and less than twice it |
| Bandwidth.SplitFitsExactlyWhen | src/soa4core/endpoints/publisher/ip/base/IPPublisherEndpointBase.cc:153-156 | the frames of a split payload fit exactly when the payload fits or its remainder is less than its quotient by the largest payload |
| Bandwidth.SplitCanExceedTheFrame | src/soa4core/endpoints/publisher/ip/base/IPPublisherEndpointBase.cc:153-156 | a payload one byte over the largest stays a single frame |
| UdpPublisher.RemotesAreTheDistinctCalls | src/soa4core/endpoints/publisher/ip/udp/UDPPublisherEndpoint.cc:69-96 | after any addRemote calls the remotes are the calls without repetition in first-seen order, with one filter per remote, or one in all for a multicast endpoint |
| UdpPublisher.UDPPublisherEndpoint.AddRemote | src/soa4core/endpoints/publisher/ip/udp/UDPPublisherEndpoint.cc:69-82 | adds the remote and its filter unless the scan finds it |
| UdpPublisher.UDPPublisherEndpoint.CheckAndCreateFilter | src/soa4core/endpoints/publisher/ip/udp/UDPMcastPublisherEndpoint.cc:76-90 | installs one filter per call, or only the first one for a multicast endpoint |
| UdpPublisher.UDPPublisherEndpoint.Publish | src/soa4core/endpoints/publisher/ip/udp/UDPPublisherEndpoint.cc:98-104 | a connected endpoint sends exactly one copy per remote in order, or one to the multicast group |
| SdHeader.HeaderConservation | src/soa4core/messages/someip/SomeIpSDHeader.cc:73-133 | over any encapsulations and decapsulations: nothing is lost, elements leave in the order they entered, and all length fields count what is inside |
| SdHeader.SomeIpSDHeader.EncapOption | src/soa4core/messages/someip/SomeIpSDHeader.cc:102-108 | appends the option and updates the three lengths |
| SdHeader.SomeIpSDHeader.DecapOption | src/soa4core/messages/someip/SomeIpSDHeader.cc:110-121 | takes the first option off, if any, and updates the three lengths |
| SdHeader.SomeIpSDHeader.DecapEntry | src/soa4core/messages/someip/SomeIpSDHeader.cc:81-92 | takes the first entry off, if any, and updates the three lengths |
| SdHeader.SomeIpSDHeader.Copy | src/soa4core/messages/someip/SomeIpSDHeader.cc:60-71 | a copy has the same entries, options and lengths |
| SdCodec.SomeIpSD.BuildOffer | src/soa4core/discovery/someip/SomeIpSD.cc:133-194 | builds the encoded offer: its entry counts exactly the options that follow, and the header lengths agree |
| SdCodec.SomeIpSD.BuildSubscribe | src/soa4core/discovery/someip/SomeIpSD.cc:196-224 | builds the encoded subscription, a deadline option counted |
| SdCodec.SomeIpSD.ProcessOfferEntry | src/soa4core/discovery/someip/SomeIpSD.cc:290-331 | the option loop decodes the offer, or throws what the decoder says |
| SdCodec.SomeIpSD.ProcessSubscribeEventGroupEntry | src/soa4core/discovery/someip/SomeIpSD.cc:333-362 | emits the decoded subscriptions in order |
| SdCodec.SomeIpSD.ProcessSubscribeEventGroupAckEntry | src/soa4core/discovery/someip/SomeIpSD.cc:364-388 | the option loop decodes the acknowledgement |
| SdNotification.SomeIpDiscoveryNotification.UpdateFromOption | src/soa4core/discovery/SomeIpDiscoveryNotification.cc:189-234 | updates the notification in place as the decoder says, and reports a change unless it throws |
| SdNotification.UpdateThrowsExactlyWhen | src/soa4core/discovery/SomeIpDiscoveryNotification.cc:189-234 | an option is refused exactly when it is a configuration option, of unknown protocol, or repeats a group; otherwise it adds exactly its SOME/IP group |
| SdNotification.DecodedGroupsAreSomeIp | src/soa4core/discovery/someip/SomeIpSD.cc:290-388 | whatever arrives, a decoded notification names only SOME/IP groups |
| SdRoundTrip.OfferEncodesExactlyWhen | src/soa4core/discovery/someip/SomeIpSD.cc:133-194 | an offer encodes exactly for SOME/IP groups with the multicast data they need, one endpoint option per group and an entry that counts all options |
| SdRoundTrip.OfferRoundTrip | src/soa4core/discovery/someip/SomeIpSD.cc:133-331 | an encoded offer decodes exactly when it offers some group, and then to the same service, instance and groups with every group's own ports and address; without a group the receiver finds no address |
| SdRoundTrip.OfferRoundTripWithNegotiation | src/soa4core/discovery/someip/SomeIpSD.cc:186-191 | with QoS negotiation an offer carries just the publisher's address |
| SdRoundTrip.UdpPortDependsOnTheOrder | src/soa4core/discovery/SomeIpDiscoveryNotification.cc:205-229 | a TCP option overwrites the UDP port, so it survives only in enumeration order: in the other order exactly when the ports are equal |
| SdRoundTrip.SubscribeRoundTrip | src/soa4core/discovery/someip/SomeIpSD.cc:196-362 | a subscription encodes exactly for an encodable group, and decodes to one notification with that group |
| SdRoundTrip.OneSubscriptionPerOption | src/soa4core/discovery/someip/SomeIpSD.cc:333-362 | a subscription of several endpoint options is as many subscriptions, in the order of the options, each with its own option's address, port and group |
| SdRoundTrip.AckRoundTrip | src/soa4core/discovery/someip/SomeIpSD.cc:226-388 | so does an acknowledgement, naming the group in its group set |
| SdRoundTrip.FindRoundTrip | src/soa4core/discovery/someip/SomeIpSD.cc:113-131 | a Find always encodes, and decodes to one notification of its service and instance modulo 2^16 and its source, and nothing else |
| SdRoundTrip.ConfigurationOptionsAreSent | src/soa4core/discovery/someip/SomeIpSD.cc:149-191 | an offer carries each configuration option exactly when the module includes it, the notification has its values and reservation is not prevented, once each, in order and after the endpoint options |
| SdRoundTrip.SubscriptionTellsItsDeadline | src/soa4core/discovery/someip/SomeIpSD.cc:210-221 | a subscription is one endpoint option, followed by its deadline exactly when the module includes it and there is one |
| Connectors.SearchIsExact | src/soa4core/manager/base/Manager.cc:282-306 | the search finds the first connector of the group, and none exactly when there is none |
| Connectors.RegisteringKeepsValid | src/soa4core/manager/base/Manager.cc:103-135 | a subscriber is refused exactly when connected already; otherwise it joins the connector of its group or creates one exactly when there is none, keeping distinct groups, one group per connector and distinct module indices |
| Connectors.RegisteringConnects | src/soa4core/manager/base/Manager.cc:103-168 | a registration appends the application to the one connector of its group, or appends a connector with it alone, its address and its ports; every other connector stays, and registering again is refused |
| Connectors.SubscriberEndpointOnce | src/soa4core/manager/base/Manager.cc:218-239 | a subscriber endpoint is created once per connector; asking again finds it; it fails exactly without a connector |
| Connectors.HomogeneousSearch | src/soa4core/manager/base/Manager.cc:282-306 | the connector of a group is unique, so the search finds it wherever it stands |
| ConnectorGrowth.PublisherEndpointGrows | src/soa4core/manager/base/Manager.cc:197-216 | a publisher endpoint is found or created exactly when the service is published, endpoint numbers stay distinct, and asking again changes nothing |
| ConnectorGrowth.PublisherEndpointChanges | src/soa4core/manager/base/Manager.cc:197-216 | looking for a publisher endpoint adds that endpoint without remotes, or nothing, and changes nothing else |
| ConnectorGrowth.SubscriberEndpointGrows | src/soa4core/manager/base/Manager.cc:218-239 | creating a subscriber endpoint keeps the registry's invariant and every other connector |
| ConnectorGrowth.SubscriberEndpointChanges | src/soa4core/manager/base/Manager.cc:218-239 | looking for a subscriber endpoint gives the connector of the group one, or changes nothing, and changes nothing else |
| ConnectorGrowth.SubscriberGrows | src/soa4core/manager/base/Manager.cc:111-134 | registering a subscriber takes nothing away and leaves it connected, in a connector of its group |
| ConnectorGrowth.PublisherGrows | src/soa4core/manager/base/Manager.cc:63-101 | registering a publisher keeps all connectors, numbered distinctly |
| ConnectorGrowth.RemoteAdded | src/soa4core/manager/someip/SomeIpManager.cc:651-655 | adding a remote to an endpoint keeps every other endpoint and remote |
| ConnectorGrowth.RemoteChanges | src/soa4core/manager/someip/SomeIpManager.cc:651-655 | adding a remote to an endpoint adds that remote to that endpoint and changes nothing else |
| ConnectorGrowth.RemoteIsAddedOnce | src/soa4core/endpoints/publisher/ip/udp/UDPPublisherEndpoint.cc:69-82 | a new remote becomes the last of its endpoint, one that is there stays where it is |
| HostManager.ServiceRegistry.GetSubscriberConnectorsCount | src/soa4core/registry/base/Registry.cc:78-84 | the sum over all services counts every connector once, in whatever order the services are visited |
| HostManager.ServiceRegistry.AddSubscriberServiceConnector | src/soa4core/registry/base/Registry.cc:43-48 | appends the connector to its service's list, creating the list if need be |
| HostManager.Manager.FindSubscriberConnector | src/soa4core/manager/base/Manager.cc:282-306 | the loop with break finds what the search function finds, or throws on an empty connector before it |
| HostManager.Manager.FindSubscriberEndpoint | src/soa4core/manager/base/Manager.cc:259-280 | whether some connector of the group has an endpoint |
| HostManager.Manager.FindPublisherEndpoint | src/soa4core/manager/base/Manager.cc:241-257 | the first endpoint of the group, if the service is published |
| HostManager.Manager.RegisterPublisherService | src/soa4core/manager/base/Manager.cc:63-77 | adds a connector, or throws for a service already published |
| HostManager.Manager.RegisterSubscriberService | src/soa4core/manager/base/Manager.cc:103-135 | joins or creates the connector, with the current connector count as its index |
| HostManager.Manager.FindOrCreatePublisherEndpoint | src/soa4core/manager/base/Manager.cc:197-216 | finds or creates the endpoint, with the next endpoint number |
| HostManager.Manager.FindOrCreateSubscriberEndpoint | src/soa4core/manager/base/Manager.cc:218-239 | finds or creates the endpoint of the connector of the group |
| SomeIpManager.SomeIpManager.HandleNextRepetitionPhase | src/soa4core/manager/someip/SomeIpManager.cc:767-789 | sends, what TimersSendTheirOwn says, unless it is the first operation, then schedules the doubled delay or enters the main phase |
| SomeIpManager.SomeIpManager.StartInitialWaitPhase | src/soa4core/manager/someip/SomeIpManager.cc:745-755 | waits for the initial delay, or sends at once without one |
| SomeIpManager.SomeIpManager.OnTimer | src/soa4core/manager/someip/SomeIpManager.cc:69-82 | dispatches a self message to the handler of its kind |
| SomeIpManager.SomeIpManager.RegisterPublisher | src/soa4core/manager/someip/SomeIpManager.cc:92-164 | registers, then creates the static multicast endpoint or starts offering |
| SomeIpManager.SomeIpManager.OnDiscoverService | src/soa4core/manager/someip/SomeIpManager.cc:282-334 | creates the static endpoint or a subscription in its initial wait |
| SomeIpManager.SomeIpManager.OnFind | src/soa4core/manager/someip/SomeIpManager.cc:533-565 | answers as FindIsAnswered says, for the instance or for all instances past their initial wait |
| SomeIpManager.SomeIpManager.SubscribeServiceIfThereIsAPendingRequest | src/soa4core/manager/someip/SomeIpManager.cc:568-613 | subscribes, with the contents of SubscriptionsNameTheOffer, for every offered group that is waited for and not requested |
| SomeIpManager.SomeIpManager.OnSubscribe | src/soa4core/manager/someip/SomeIpManager.cc:616-688 | creates the endpoint, adds the remote and acknowledges |
| SomeIpManager.SomeIpManager.ProcessAcknowledgedSubscription | src/soa4core/manager/someip/SomeIpManager.cc:181-221 | activates requested subscriptions of the instance and of any instance |
| SomeIpTheorems.SendSchedule | src/soa4core/manager/someip/SomeIpManager.cc:745-812 | in every reachable state the k-th send was at the first plus baseDelay*(2^(k-1)-1), at most R before the main phase; only offers send again, once per cyclic delay; no key has two timers |
| SomeIpTheorems.MainPhaseStartsAfter | src/soa4core/manager/someip/SomeIpManager.cc:767-801 | the event that brings a key into the main phase, its service not seen, makes exactly its (R+1)-th send |
| SomeIpTheorems.EveryDueSendIsMade | src/soa4core/manager/someip/SomeIpManager.cc:745-812 | no scheduled send is skipped: once its instant has passed it has been made |
| SomeIpMessages.TimersSendTheirOwn | src/soa4core/manager/someip/SomeIpManager.cc:814-823 | in every reachable state whatever a key's timer has sent went to everyone: for a subscription a Find of its service and instance, for an offer an Offer of all that its publisher offers |
| SomeIpMessages.FindIsAnswered | src/soa4core/manager/someip/SomeIpManager.cc:533-565 | a Find makes a host send one Offer of all that its publisher offers to the asker's address, exactly if the host offers what it asks for past its initial wait, and changes nothing else |
| SomeIpMessages.SubscriptionsNameTheOffer | src/soa4core/manager/someip/SomeIpManager.cc:568-613 | all that an offer makes a host send are subscriptions that name the offered service and instance, go to the offer's address and carry a connector's ports and the deadline of its first application |
| SomeIpMessages.SubscriptionsAreOrdered | src/soa4core/manager/someip/SomeIpManager.cc:578-613 | they leave one per group at most, in the order of the groups' enumeration |
| SomeIpEffects.OfferAsksExactly | src/soa4core/manager/someip/SomeIpManager.cc:568-613 | an offer marks exactly the subscriptions it is for and that have no request unanswered as seen, requested and in their main phase, and changes no other key, timer, application or endpoint |
| SomeIpEffects.PublisherIsRegistered | src/soa4core/manager/someip/SomeIpManager.cc:92-164 | an accepted publisher is published and nothing else is touched: a static one has its multicast endpoint with its destination as only remote and no discovery; any other has no endpoint and a new offer of all its data, due after its initial delay |
| SomeIpEffects.SubscriberIsRegistered | src/soa4core/manager/someip/SomeIpManager.cc:282-334 | an accepted subscriber is connected and nothing else is touched: joining changes no discovery, a first static one has its multicast endpoint, any other first one a new subscription due after its initial delay |
| SomeIpEffects.RefusalsExplain | src/soa4core/manager/someip/SomeIpManager.cc:98-123 | which error a refused registration is told, in the order of the checks; no timer is ever refused |
| SomeIpEffects.SubscriptionIsServedExactly | src/soa4core/manager/someip/SomeIpManager.cc:616-688 | a subscription for an offered group adds its endpoint, for the UDP kinds its address and port as remote, marks the offer and sends one acknowledgement with the publisher's instance and ports; any other subscription changes nothing |
| SomeIpEffects.AckIsTakenExactly | src/soa4core/manager/someip/SomeIpManager.cc:181-221 | an acknowledgement activates exactly the subscriptions that have asked and that it is for, gives their connectors an endpoint, sends nothing and changes nothing else |
| SomeIpEffects.ApplicationsAreThoseRegistered | src/soa4core/manager/base/Manager.cc:63-135 | after any run a host publishes and connects exactly the applications registered in it |
| SomeIpSchedule.OffsetClosedForm | src/soa4core/manager/someip/SomeIpManager.cc:776-789 | the doubling delays add up to the closed form, then one cyclic delay per send |
| SomeIpSchedule.FiringMoves | src/soa4core/manager/someip/SomeIpManager.cc:757-812 | whichever due timer fires, stale or not, the manager handles it without an error of its own and keeps every key on schedule |
| SomeIpSchedule.TimersHaveStates | src/soa4core/manager/someip/SomeIpManager.cc:751-753 | a pending timer is always for a state that exists |
| SomeIpTheorems.RequestsAreConserved | src/soa4core/manager/someip/SomeIpManager.cc:585-607 | subscriptions sent are acknowledgements accepted plus one exactly while requested; active exactly once one was accepted; requested or active implies seen implies main phase |
| SomeIpTheorems.OnlyForward | src/soa4core/manager/someip/SomeIpManager.h:45-88 | phases and flags only go forward, and after seen no Find is ever sent |
| SomeIpTheorems.NoEarlyOffer | src/soa4core/manager/someip/SomeIpManager.cc:533-565 | no Offer of an instance, by timer or in answer to a Find, leaves before its initial delay is over |
| SomeIpTheorems.InstancesAreUnique | src/soa4core/manager/someip/SomeIpManager.cc:125-157 | one instance per subscribed service and group and one per offered service, and the registry's invariant, in every reachable state |
| SomeIpTheorems.ManagerThrowsExactlyWhen | src/soa4core/manager/someip/SomeIpManager.cc:315-332 | exactly which events the manager itself refuses with a throw; the errors that should never happen do not |
| SomeIpHost.HostThrowsExactlyWhen | src/soa4core/discovery/someip/SomeIpSD.cc:412-458 | which events throw at a host, discovery module included: exactly those the manager refuses and those that make it send an offer, subscription or acknowledgement that cannot be encoded, told before the event |
| SomeIpHost.UnencodableOfferThrows | src/soa4core/discovery/someip/SomeIpSD.cc:441-452 | an accepted publisher of the multicast group without multicast data throws when it is offered |
| SomeIpHost.FindsNeverThrow | src/soa4core/manager/someip/SomeIpManager.cc:533-565 | at a host that has come so far without a throw no Find throws: what it is answered with has been sent before |
| SomeIpTheorems.SecondInstanceOnlyJoins | src/soa4core/manager/base/Manager.cc:127-133 | a further subscriber of a service and group is connected whatever instance it names, and nothing is discovered for it |
| SomeIpTheorems.LostAckWedges | src/soa4core/manager/someip/SomeIpManager.cc:585-607 | over any run without an acknowledgement a requested subscription never asks again, however many offers arrive |
| SomeIpTheorems.OfferTriggersExactlyWhen | src/soa4core/manager/someip/SomeIpManager.cc:568-613 | an offer makes the host subscribe for a key exactly when the offer is for it and no request of it is unanswered, and then once |
| SomeIpTheorems.OfferedTwiceAsksOnce | src/soa4core/manager/someip/SomeIpManager.cc:585-607 | a host that registers a subscriber and gets its offer twice, the answer lost, asks once and is wedged |
| SomeIpTheorems.SubscriberEndpointIsForGood | src/soa4core/manager/base/Manager.cc:218-239 | a connector's endpoint is set at most once over any run |
| SomeIpInvariant.PublisherFollows | src/soa4core/manager/someip/SomeIpManager.cc:92-164 | the manager refuses a publisher exactly when its service is published already or its static multicast data is incomplete |
| SomeIpInvariant.SubscriberFollows | src/soa4core/manager/base/Manager.cc:103-135 | a subscriber is refused exactly when connected already or its static multicast data is incomplete |
| SomeIpInvariant.OfferForGroupsFollows | src/soa4core/manager/someip/SomeIpManager.cc:568-613 | an offer, whatever it says, never makes the manager throw, and every subscription sent names the ports of a connector of its service and group |
| SomeIpInvariant.AcknowledgingFollows | src/soa4core/manager/someip/SomeIpManager.cc:616-688 | a subscription makes the manager throw exactly for an offered group that is no SOME/IP group; an acknowledgement is sent only with endpoint and remote in place and names the publisher's instance |
| SomeIpInvariant.AckFollows | src/soa4core/manager/someip/SomeIpManager.cc:181-221 | acknowledgements of SOME/IP groups never throw, and only they activate or clear a request |
| SomeIpRuns.EventKeepsGood | src/soa4core/manager/someip/SomeIpManager.cc:69-178 | every event keeps the whole invariant of a host |
| SomeIpAgreement.ActiveIsServed | src/soa4core/manager/someip/SomeIpManager.cc:181-221 | agreement, for any number of hosts and any loss, duplication and reordering: an active subscription has its endpoint, and another host publishes the service, and the subscribed instance of it unless any was asked for, with an endpoint of the group, whose remotes contain the subscriber's address and UDP port for the UDP group |
| SomeIpAgreement.ActionKeepsInv | src/soa4core/manager/someip/SomeIpManager.cc:568-688 | every local event and every delivery keeps the invariant that ties messages in flight to endpoints in place, and that all of them were encoded |
| SomeIpRemotes.RemotesAreSubscribers | src/soa4core/manager/someip/SomeIpManager.cc:634-672 | the converse of agreement, under the same network: every remote of a publisher is the multicast destination it names itself, or the address of another host that subscribes to the group there, with its application's port for the UDP group |
| SomeIpSearch.FindBringsTheOffer | src/soa4core/manager/someip/SomeIpManager.cc:533-565 | in any reachable state of any number of hosts, delivering a Find to a host that offers what it asks for throws nothing and makes it send one Offer, which can be delivered to the asker and tells it the publisher's groups, ports and multicast address |
| SomeIpSearch.SearchActivates | src/soa4core/manager/someip/SomeIpManager.cc:533-688 | from there, delivering Find, Offer, subscription and acknowledgement in turn can happen, throws nothing and makes the waiting subscription active |
| SomeIpHandshake.HandshakeActivates | src/soa4core/manager/someip/SomeIpManager.cc:568-688 | in any reachable state of any number of hosts in which one has sent an offer that another waits for, delivering the offer, then the subscription, then the acknowledgement can happen, throws nothing and makes the subscription active |
| SomeIpHandshake.OfferTellsThePublishersPorts | src/soa4core/manager/someip/SomeIpManager.cc:141-156 | in every reachable state an offer that arrives carries the publisher application's own groups, ports and multicast address |
| SomeIpHandshake.QuestionArrives | src/soa4core/manager/someip/SomeIpManager.cc:597-601 | a decoded subscription carries the offered service and instance, the subscriber's address and the connector's port of the group |
| SomeIpHandshake.AnswerArrives | src/soa4core/manager/someip/SomeIpManager.cc:681-684 | a decoded acknowledgement carries the publisher's address, instance and port of the group |
| SomeIpDelivery.DeliveriesThrowExactlyWhen | src/soa4core/discovery/someip/SomeIpSD.cc:248-388 | in every reachable state of the whole system a delivery throws exactly when it is of an offer of no group, that is, of a publisher without one |
| SomeIpDelivery.EmptyOfferThrows | src/soa4core/discovery/someip/SomeIpSD.cc:323-327 | a host offers a publisher without groups, and the host that the offer reaches throws for want of an address |
| QosProtocol.QoSBroker.Begin | src/soa4core/qosmanagement/negotiation/broker/QoSBroker.cc:97-127 | a fresh client sends its request, any other is invalid and finished |
| QosProtocol.QoSBroker.OnResponse | src/soa4core/qosmanagement/negotiation/broker/QoSBroker.cc:178-245 | a pending client prepares its connectionless endpoint and sends Establish, or finishes on failure |
| QosProtocol.QoSBroker.OnEstablish | src/soa4core/qosmanagement/negotiation/broker/QoSBroker.cc:247-317 | a pending server creates its endpoint, adds the remote, sends Finalise and finishes |
| QosProtocol.QoSBroker.OnFinalise | src/soa4core/qosmanagement/negotiation/broker/QoSBroker.cc:319-368 | a client pending connection creates its endpoint unless connectionless, records the outcome and finishes |
| QosProtocol.QoSBroker.Handle | src/soa4core/qosmanagement/negotiation/broker/QoSBroker.cc:56-95 | handles only messages of its endpoint pair, each in its state |
| QosProtocol.QoSNegotiationProtocol.OnMessage | src/soa4core/qosmanagement/negotiation/QoSNegotiationProtocol.cc:86-129 | the first responsible broker handles the message and is erased when finished; what nobody handles may open a session |
| QosProtocol.QoSNegotiationProtocol.OnCreateBroker | src/soa4core/qosmanagement/negotiation/QoSNegotiationProtocol.cc:69-82 | creates the client broker, which sends its request |
| QosEffects.BeginningAsks | src/soa4core/qosmanagement/negotiation/broker/QoSBroker.cc:97-127 | a new client broker sends one request for its group to its publisher and waits for the response |
| QosEffects.ResponseEstablishes | src/soa4core/qosmanagement/negotiation/broker/QoSBroker.cc:178-232 | an awaited response makes the client prepare the UDP endpoint and no other, and send one Establish that names its connector's address and port exactly for UDP |
| QosEffects.EstablishFinalises | src/soa4core/qosmanagement/negotiation/broker/QoSBroker.cc:247-317 | an awaited Establish makes the server serve the group and, for UDP, the subscriber it carries and nobody else, and send one Finalise with the publisher's address and port |
| QosEffects.FinaliseSucceeds | src/soa4core/qosmanagement/negotiation/broker/QoSBroker.cc:319-352 | an awaited Finalise makes the client create its endpoint unless it is the UDP one, record the success and be erased |
| QosEffects.FailureEnds | src/soa4core/qosmanagement/negotiation/broker/QoSBroker.cc:178-368 | an awaited failure erases the client's broker and fails its request, as acknowledged or finalised, and sends and creates nothing |
| QosEffects.UnawaitedOpensOrIsDropped | src/soa4core/qosmanagement/negotiation/QoSNegotiationProtocol.cc:92-129 | a message nobody waits for opens a session if it is a request and is dropped otherwise |
| QosStatuses.StatusTellsTheState | src/soa4core/qosmanagement/negotiation/broker/QoSBroker.cc:97-368 | under any network a request's status is RequestSend exactly while its broker waits for the response, EstablishSend exactly while it waits for the Finalise, and FinalisedSuccess exactly if it has succeeded, at most once |
| QosStatuses.DispatchTells | src/soa4core/qosmanagement/negotiation/QoSNegotiationProtocol.cc:92-129 | every message, failures and strays included, keeps statuses, brokers and successes in step |
| QosAgreement.OneBrokerActs | src/soa4core/qosmanagement/negotiation/QoSNegotiationProtocol.cc:92-129 | at most one broker acts on a message |
| QosAgreement.SuccessMeansEndpoints | src/soa4core/qosmanagement/negotiation/broker/QoSBroker.cc:178-368 | agreement under any network and any number of brokers: a client succeeds only with the publisher's and its own endpoint in place, the Finalise naming the publisher's address and port, and for UDP the subscriber application's address and port among the remotes, as an Establish carried them |
| QosSafety.EstablishFollows | src/soa4core/qosmanagement/negotiation/broker/QoSBroker.cc:247-317 | a Finalise is only sent with the endpoint, and for UDP the remote that the Establish carried, in place |
| QosSafety.ResponseFollows | src/soa4core/qosmanagement/negotiation/broker/QoSBroker.cc:178-245 | a UDP Establish is only sent with the subscriber endpoint in place and names its connector's address and port |
| QosHandshake.ResponseIsDroppedExactlyWhen | src/soa4core/qosmanagement/negotiation/broker/QoSBroker.cc:425-428 | a response is dropped exactly when the first broker of its endpoint pair does not wait for one |
| QosStuck.SecondNegotiationIsStuck | src/soa4core/qosmanagement/negotiation/QoSNegotiationProtocol.cc:92-129 | of two negotiations for one endpoint pair, delivered in the order of sending, the first succeeds and the second is stuck: nothing is in flight and its client still waits for the dropped response |
| QosStuck.TwoSubscribersOfOneService | src/soa4core/manager/qos/QoSManager.cc:172-194 | two subscriber applications of one host with different groups of one service are such a case |
| QosCompletion.NegotiationsComplete | src/soa4core/qosmanagement/negotiation/QoSNegotiationProtocol.cc:67-144 | completion on a reliable network: every message in flight is handled without an error, at most four deliveries per negotiation, and when nothing is in flight exactly four, no broker is left, and every negotiation begun has succeeded by a Finalise of its own group with both hosts holding an endpoint of that group |
| QosCompletion.DeliveryKeepsInv | src/soa4core/qosmanagement/negotiation/broker/QoSBroker.cc:129-368 | each open pair has exactly one message in flight, matching both brokers' states and the requested group, and a delivery takes it one step on |
| QosCompletion.DeliveriesRunOut | src/soa4core/qosmanagement/negotiation/QoSNegotiationProtocol.cc:92-129 | the measure Request, Response, Establish, Finalise drops by one with every delivery |
| QosCompletion.DeliveriesEnd | src/soa4core/qosmanagement/negotiation/QoSNegotiationProtocol.cc:92-129 | delivering what is in flight, in any order, ends after exactly as many deliveries as the measure says |
| QosPending.DiscoveredIsPendingOrRequested | src/soa4core/manager/qos/QoSManager.cc:164-194 | over all runs what was discovered is what is pending and what was requested, each as often, and requests are numbered 0, 1, 2, ... |
| QosPending.PendingIsNotYetOffered | src/soa4core/manager/qos/QoSManager.cc:164-194 | after any run what is pending is what was discovered and not offered since, in the order of discovery and as often |
| QosPending.PickingKeepsTheOrder | src/soa4core/manager/qos/QoSManager.cc:180-192 | picking a service's entries, and dropping them, commutes with appending, so both keep order and number |
| QosPending.OfferLeavesTheOthers | src/soa4core/manager/qos/QoSManager.cc:190-192 | removing what was requested, duplicates included, leaves exactly the other services' requests |
| QosPending.OfferAsksThePublisher | src/soa4core/manager/qos/QoSManager.cc:180-189 | each pending entry of the service, in order, becomes one request to the offering publisher with the next number |
| QosPending.QoSManager.SubscribeOfferedService | src/soa4core/manager/qos/QoSManager.cc:172-194 | the two loops do what the offer function says |

## Left out

- Sockets, ARP, traffic filters, gates, signals, statistics, NED, ini and connector-mapping files: library plumbing. Creating an endpoint allocates a numbered entry tagged with its group.
- AVB endpoints, the SRP tables, the TCP socket map, the synchronous publisher and the gateways: they rest on CoRE4INET and INET code that is not part of this model. A stream reservation ends with the values handed to the SRP table.
- Connectors, endpoints and discovery states are values inside the registry's and the manager's tables, which the methods reassign; aliasing through references to them is not captured. A timer names the key of the state it is for.
- The nested maps of subscriptions and offers are one map whose keys name service, group and instance; an inner map that exists but is empty is not told apart from none.
- The iterator comparison at src/soa4core/manager/someip/SomeIpManager.cc:100 and 628 compares iterators of two temporary sets; the membership test it stands for is modelled.
- Times, delays, intervals and sizes in arithmetic are exact reals and integers: floating point rounding and the 32 bit range of ports, counters and normalised sizes are not modelled. The 16 bit fields of entries, options and talkers are.
- The initial delay is a parameter of each registration; the base and cyclic delays are constant over a run and the base delay is not negative.
- The payload, interval, VLAN, priority and deadline fields of a manager's offers are not filled in from the application; the codec carries them.
- The header's assignment operator appends to the lists it should replace; only copy construction is covered. The entry that an offer keeps changing after encapsulating it is reached through the header.
- Connector limits other than the default, removing applications, and QoS groups that change while running.
- Failure responses: a request and an establish are always found acceptable (src/soa4core/qosmanagement/negotiation/broker/QoSBroker.cc:370-382), so no broker sends one; receiving one is modelled.
- SomeIpTheorems.ManagerThrowsExactlyWhen: says only what the manager throws; the discovery module's throws on sending are in SomeIpHost.HostThrowsExactlyWhen. In both an acknowledgement naming other than SOME/IP groups is excluded, because no decoder produces one (SdNotification.DecodedGroupsAreSomeIp).
- SomeIpSchedule.FiringMoves: about the manager alone; a first offer that cannot be encoded throws in the same event, as SomeIpHost.HostThrowsExactlyWhen says.
- SomeIpInvariant.PublisherFollows: about the manager alone; without an initial delay the first offer may throw, as SomeIpHost.HostThrowsExactlyWhen says.
- SomeIpInvariant.OfferForGroupsFollows: about the manager alone; for an offer of the multicast group without multicast data the subscription cannot be encoded (SomeIpHost.HostThrowsExactlyWhen), and no decoder produces one (SomeIpDelivery.DeliveriesThrowExactlyWhen).
- SomeIpInvariant.AcknowledgingFollows: about the manager alone; the same holds for its acknowledgement.
- SomeIpHandshake.HandshakeActivates: asks for a service id of 16 bits, because the wire carries no more of it.
- SomeIpSearch.FindBringsTheOffer: asks for a service id of 16 bits, for the same reason.
- SomeIpSearch.SearchActivates: asks for a service id of 16 bits, for the same reason.
- QosCompletion.NegotiationsComplete: asks for different hosts and one open negotiation per endpoint pair, because otherwise the second is stuck (QosStuck.SecondNegotiationIsStuck).
- Stream identifiers, the equality operator of notifications and the sizes of negotiation messages: easy facts about single functions.
