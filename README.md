# Infrastructure RAG document builder — a Dafny model of its core

The system collects records about an infrastructure over SSH:
- Docker containers and their `inspect` output;
- Proxmox guests and the output of its command-line tools;
- Nginx Proxy Manager host files;
- docker-compose files.

From these records it builds the documents of a retrieval-augmented-generation (RAG) data set, `rag_data.json`. Each document has an id, a type, a title, metadata and tags. Relationship records link the documents in forward/reverse pairs. Validators then check the result.

This project models the logic that builds and checks those documents. It states and proves what that logic promises:

- **Cleaning and extraction** (`TemporalCleaning`, `MetadataExtraction`, `Assembly`). Removes fields that change from run to run. Extracts container, host and service properties and relationship lists. Builds titles and tag lists.
- **Relationships** (`Relationships`, `DockerContainers`, `DockerCompose`, `RelationshipPostProcessing`). Builds forward/reverse edge pairs, compose `depends_on` edges and DNS → proxy routes. Also matches each proxy host's backend address to the services whose containers publish it.
- **Service grouping** (`ServiceGrouping`). Groups containers into services by five passes in priority order: label, name prefix, dependency cluster, compose project, shared network.
- **Configuration parsers** (`NginxProxy`, `DockerCompose`, `ParserRegistry`). Parses Nginx Proxy Manager and docker-compose files. The registry picks the first parser that accepts a file.
- **Container documents** (`ContainerProcessing`). Container entity ids, service type read off the image name, fallback tags, and the replacement of container documents in `rag_data.json`.
- **Validators** (`EntitySchema`, `RelationshipValidation`, `ContentValidation`). A declarative schema validator, a relationship consistency validator and a content-length validator.
- **Proxmox** (`ProxmoxCollection`, `ProxmoxProcessing`). Parsers for Proxmox command output and `storage.cfg`, and the VM / LXC host-document builders.

Shared modules:
- `Values` models the loosely typed data the Python code handles: JSON/YAML values, with dicts as insertion-ordered association lists.
- `Text` models the Python string operations the code uses: `strip`, `split`, `lower`, `startswith` and so on.

Modelling conventions:
- A path where the Python code would raise an exception is modelled as `None` or an error value. The exceptions are listed under "## Left out": one precondition (`EntitySchema.EntitySchemaValidator.ValidateDocument`) and the raises the model does not represent ("Crash paths").
- Where the source mutates objects step by step, the model is a class or a method with loop invariants. Each such method is proved equal to a specification function, and the properties are proved about that function.
- The order in which a Python `set` is iterated is arbitrary. In the relationship post-processor that order is a parameter, constrained only to list the set's elements once each. The service grouper fixes one order instead; the lines under "## Left out" that start with `ServiceGrouping` say which.

## Model

| member | source | states |
|---|---|---|
| TemporalCleaning.RemovalFields | src/utils/rag_utils.py:118-128 | the fields removed for a data type are exactly its configured fields together with its custom rules |
| TemporalCleaning.ShouldRemoveField | src/utils/rag_utils.py:151-176 | a key whose lower-cased form is a listed field is always removed; with no fields and no patterns nothing is |
| TemporalCleaning.WildcardMatch | src/utils/rag_utils.py:162-166 | a rule without `*` or `.` matches exactly the keys it is a prefix of |
| TemporalCleaning.KeptFields | src/utils/rag_utils.py:132-141 | the entries a dict keeps are entries of the dict whose keys no rule removes, in the dict's key order |
| TemporalCleaning.RecursiveClean | src/utils/rag_utils.py:130-149 | no dict at any depth of the result has a removable key; a dict keeps its other keys in order, each mapped to its value cleaned; a list keeps its length; a scalar is returned as is |
| TemporalCleaning.CleanData | src/utils/rag_utils.py:102-116 | a non-dict is returned unchanged; a dict comes back with no removable key at any depth under the rules of its data type |
| TemporalCleaning.CleanDropsOnlyRemoved | src/utils/rag_utils.py:130-141 | a dict {k: x, t: y} with t removable and x already clean is cleaned to {k: x} |
| TemporalCleaning.CleanListElementwise | src/utils/rag_utils.py:144-145 | element i of a cleaned list is element i cleaned |
| TemporalCleaning.CleanedIsFixpoint | src/utils/rag_utils.py:130-149 | a value with no removable key anywhere is left unchanged |
| TemporalCleaning.KeptFieldsOfClean | src/utils/rag_utils.py:132-141 | a dict none of whose keys is removable keeps every entry |
| TemporalCleaning.CleanIdempotent | src/utils/rag_utils.py:130-149 | cleaning twice gives the same value as cleaning once |
| TemporalCleaning.RemovalIsCaseInsensitive | src/utils/rag_utils.py:151-176 | whether a key is removed depends only on its lower-cased form |
| TemporalCleaning.TimestampSuffixRemoved | src/utils/rag_utils.py:89-93 | with the fallback patterns, any key ending in `_at` is removed whatever the field set |
| TemporalCleaning.RemovalMonotone | src/utils/rag_utils.py:151-176 | adding fields to the removal set never keeps a key that was removed before |
| MetadataExtraction.LStripControl | src/utils/rag_utils.py:430-433 | URL splitting strips leading control characters and spaces; the result is never longer |
| MetadataExtraction.RemoveUnsafe | src/utils/rag_utils.py:430-433 | URL splitting drops tabs, carriage returns and newlines; the result is never longer |
| MetadataExtraction.NetlocEnd | src/utils/rag_utils.py:430-433 | the network location ends at the first '/', '?' or '#', or at the end |
| MetadataExtraction.UrlHostname | src/utils/rag_utils.py:429-435 | a hostname found in a URL is never empty; an unbalanced bracket gives none, as the caught ValueError does |
| MetadataExtraction.HostnameFromValue | src/utils/rag_utils.py:423-443 | an empty value gives none; a result is non-empty; outside URLs a result exists only for a value holding '.' and not starting with '/', and is the text before its first ':' |
| MetadataExtraction.ParseEnvironmentList | src/utils/rag_utils.py:232-243 | the environment loop leaves exactly the variables and keys of the fold over the list |
| MetadataExtraction.EnvKeyOf | src/utils/rag_utils.py:235-241 | the key of an entry contains no '=' |
| MetadataExtraction.EnvKeysAreEntryKeys | src/utils/rag_utils.py:234-241 | each string entry yields exactly one key, in order: the text before its first '=' or the whole entry; other entries are skipped |
| MetadataExtraction.EnvLastEntryBinds | src/utils/rag_utils.py:235-237 | a final entry "K=V" binds K to V whatever came before |
| MetadataExtraction.ServiceRefs | src/utils/rag_utils.py:390-404 | the references are duplicate-free; ServiceRefsSound and ServiceRefsComplete show they are exactly the non-empty hostnames of the matching variables |
| MetadataExtraction.ExtractServiceReferences | src/utils/rag_utils.py:390-404 | the loop returns exactly the specified references |
| MetadataExtraction.ServiceRefsSound | src/utils/rag_utils.py:394-402 | every reference is the hostname of a string variable whose key contains _HOST, _URL or _ENDPOINT |
| MetadataExtraction.ServiceRefsComplete | src/utils/rag_utils.py:394-402 | every non-empty hostname of a string variable whose key contains _HOST, _URL or _ENDPOINT is among the references |
| MetadataExtraction.ComposeDependsOn | src/utils/rag_utils.py:411-413 | every compose dependency is a string, trimmed and non-empty |
| MetadataExtraction.TraefikDeps | src/utils/rag_utils.py:416-419 | the Traefik loop keeps the earlier dependencies as a prefix and appends no value already present |
| MetadataExtraction.ExtractDependenciesFromLabels | src/utils/rag_utils.py:406-421 | the label loop returns exactly the specified dependency list |
| MetadataExtraction.LabelDependenciesShape | src/utils/rag_utils.py:406-421 | the result begins with the trimmed compose dependencies and no Traefik value appears twice |
| MetadataExtraction.CollectMounts | src/utils/rag_utils.py:281-294 | the mount loop returns exactly the fold over the mounts, None where a mount raises |
| MetadataExtraction.MountsNoneSticks | src/utils/rag_utils.py:285-289 | once a mount raises the whole loop raises |
| MetadataExtraction.MountBindsCount | src/utils/rag_utils.py:285-287 | every bind mount contributes exactly one destination |
| MetadataExtraction.Finish | src/utils/rag_utils.py:300-303 | the result has no None property and no falsy relationship, and keeps every other property and relationship |
| MetadataExtraction.DropNulls | src/utils/rag_utils.py:301 | an entry is kept exactly when its value is not None |
| MetadataExtraction.KeepTruthy | src/utils/rag_utils.py:302 | an entry is kept exactly when its value is truthy |
| MetadataExtraction.TruthyKeys | src/utils/rag_utils.py:277 | the exposed port keys are all non-empty |
| MetadataExtraction.ContainerRelationships | src/utils/rag_utils.py:208-298 | a record with `_system` runs on that system |
| MetadataExtraction.ContainerMetadata | src/utils/rag_utils.py:205-303 | the result is tidy (no None property, no empty relationship) and a record with `_system` runs on it |
| MetadataExtraction.AssembleContainer | src/utils/rag_utils.py:217-303 | the assembled container extraction is tidy and runs on its `_system` |
| MetadataExtraction.ServiceMetadata | src/utils/rag_utils.py:356-388 | the service extraction is tidy |
| MetadataExtraction.HostMetadata | src/utils/rag_utils.py:305-354 | the host extraction is tidy |
| MetadataExtraction.TypeSpecific | src/utils/rag_utils.py:195-201 | the type-specific part is tidy, and any type other than container, host or service adds nothing |
| MetadataExtraction.MetadataFields | src/utils/rag_utils.py:187-193 | the metadata has exactly the keys entity_id, entity_type, extraction_timestamp, properties and relationships, once each, with the extracted properties and relationships |
| MetadataExtraction.ExtractMetadata | src/utils/rag_utils.py:185-203 | the metadata exists exactly when the type-specific extraction does not raise, and is that extraction under the fixed keys |
| Assembly.ImageBaseName | src/utils/rag_utils.py:495 | the base name of an image holds no '/' or ':', and an image with neither is its own base name |
| Assembly.ImageBaseNameOf | src/utils/rag_utils.py:495 | for "path/base:tag" the base name is "base" |
| Assembly.Title | src/utils/rag_utils.py:486-513 | an entity of another type than container, host or service is titled "{entity_id} ({entity_type})" |
| Assembly.ContainerTitleWithImage | src/utils/rag_utils.py:491-496 | a container named N whose image is "path/base:tag" is titled "N (base container)" |
| Assembly.ContainerTitleWithoutImage | src/utils/rag_utils.py:492-497 | a container with neither name nor image is titled "{entity_id} (container)" |
| Assembly.LlmTags | src/utils/rag_utils.py:621-629 | every kept LLM tag is non-empty, lower-case and not "none" |
| Assembly.CollectLlmTags | src/utils/rag_utils.py:621-629 | the LLM loop returns exactly the specified tags, None where a tag raises |
| Assembly.TechTag | src/utils/rag_utils.py:637-643 | no image gives no tag and never raises, nor does a string image; a tag comes from a string image with a path and is a lower-case name without '/' or ':' |
| Assembly.TechTagOfPath | src/utils/rag_utils.py:641-643 | an image "path/Base:tag" gives the tag "base" |
| Assembly.TechTagOfContainerImage | src/utils/rag_utils.py:639-641 | a list or dict image raises iff it holds "/" as an element or a key, otherwise adds no tag; None, a boolean or a number raises |
| Assembly.PrepareTags | src/utils/rag_utils.py:617-646 | the result is duplicate-free and holds exactly the collected tags, the non-empty entity type always among them; it raises exactly when collecting does |
| Assembly.LlmTagsNoneSticks | src/utils/rag_utils.py:622-629 | once a tag raises, the whole loop raises |
| Assembly.PreparedTagsOrigin | src/utils/rag_utils.py:617-646 | every collected tag is a kept LLM tag, the entity type or the lower-cased technology of an image with a path |
| Relationships.ReverseType | src/processors/relationship_helper.py:14-28 | a reverse type exists exactly for the mapped forward types, and is the mapped, non-empty type |
| Relationships.RelationshipId | src/processors/relationship_helper.py:54 | the id starts with "{source_id}_", ends with "_{target_id}" and has exactly the length of the three parts and two separators |
| Relationships.RelationshipIdInjective | src/processors/relationship_helper.py:54 | with both endpoints fixed, the id determines the lower-cased type |
| Relationships.Stamp | src/processors/relationship_helper.py:57-60 | the stamped metadata always has created_at; an existing one is kept untouched, a missing one is added last with the current time |
| Relationships.StampKeepsOthers | src/processors/relationship_helper.py:59-60 | stamping leaves every other key's value alone |
| Relationships.MakeRelationship | src/processors/relationship_helper.py:62-70 | the record carries the relationship id built from its endpoints and type, and those endpoints and type |
| Relationships.CreateRelationship | src/processors/relationship_helper.py:31-70 | the caller's metadata dict is stamped in place, and the record carries it; without a dict a fresh stamped one is used |
| Relationships.BidirectionalPair | src/processors/relationship_helper.py:96-128 | the forward edge comes first; there is a second edge exactly for a mapped type, with endpoints swapped and the reverse type; both carry the same metadata |
| Relationships.CreateBidirectionalRelationship | src/processors/relationship_helper.py:73-128 | the caller's metadata is stamped in place and the result is the specified pair built on copies of it |
| Relationships.PairSharesTimestamp | src/processors/relationship_helper.py:96-128 | both edges of a pair carry the same created_at, and the reverse edge's endpoints are the forward edge's swapped |
| Relationships.MetadataDict.constructor | src/processors/relationship_helper.py:37 | a metadata dict holds the given fields |
| DockerContainers.ParseImage | src/processors/sub_processors/docker_sub_processor.py:349-376 | the full name is the image string; without ':' the tag is latest, otherwise the tag holds no ':'; a registry is recorded only when it contains '.' or ':' and no '/' |
| DockerContainers.ImageRoundTrip | src/processors/sub_processors/docker_sub_processor.py:355-369 | registry, '/', repository, ':' and tag put back together give the original image string |
| DockerContainers.ParseStateInfo | src/processors/sub_processors/docker_sub_processor.py:378-392 | the state is always one of the seven known states; a known status, in any case, is kept lower-cased |
| DockerContainers.UnknownStatusFollowsRunning | src/processors/sub_processors/docker_sub_processor.py:385-391 | an unknown status becomes running exactly when State.Running is truthy and stopped otherwise; a missing restart policy name becomes "no" |
| DockerContainers.MatchPortKey | src/processors/sub_processors/docker_sub_processor.py:437 | a match always carries protocol tcp or udp |
| DockerContainers.MatchPortKeyOf | src/processors/sub_processors/docker_sub_processor.py:437-442 | a key "port/tcp" or "port/udp", followed by anything, is matched back to exactly that port and protocol |
| DockerContainers.NonPortKey | src/processors/sub_processors/docker_sub_processor.py:437-439 | a key that does not start with a digit is never a port key |
| DockerContainers.BindingStep | src/processors/sub_processors/docker_sub_processor.py:445-461 | a binding without a truthy HostPort publishes nothing; one with a HostPort appends exactly one published port with that host port, the key's port and its protocol |
| DockerContainers.BindingsPorts | src/processors/sub_processors/docker_sub_processor.py:444-469 | the bindings of a key extend the published list, keeping what was there, by exactly the number of publishing bindings |
| DockerContainers.ExposedOnly | src/processors/sub_processors/docker_sub_processor.py:472-476 | every exposed-only key is an exposed key, has no PortBindings entry and is a port key |
| DockerContainers.PortInfoOf | src/processors/sub_processors/docker_sub_processor.py:422-488 | every published port is tcp or udp; exposed_ports, when present, is non-empty and lists only port keys absent from PortBindings |
| DockerContainers.PublishedProtocols | src/processors/sub_processors/docker_sub_processor.py:435-461 | every published port carries the protocol its key matched |
| DockerContainers.BindingProtocols | src/processors/sub_processors/docker_sub_processor.py:444-461 | one key's bindings add only published ports with that key's protocol |
| DockerContainers.SkippedPortKey | src/processors/sub_processors/docker_sub_processor.py:437-439 | a PortBindings key that is not a port key adds nothing to the result |
| DockerContainers.ParsePortInfo | src/processors/sub_processors/docker_sub_processor.py:422-488 | the loops over PortBindings and ExposedPorts compute exactly PortInfoOf |
| DockerContainers.BoundPortsNoneSticks | src/processors/sub_processors/docker_sub_processor.py:435-469 | once a binding raises, the whole parse fails whatever follows |
| DockerContainers.BindingsNoneSticks | src/processors/sub_processors/docker_sub_processor.py:445-461 | once a binding of a key raises, the whole key fails whatever follows |
| DockerContainers.EnvNames | src/processors/sub_processors/docker_sub_processor.py:520-523 | no recorded variable name contains '=' |
| DockerContainers.EnvNamesOfAssignments | src/processors/sub_processors/docker_sub_processor.py:519-523 | exactly one name per entry containing '=', namely the text before its first '=' |
| DockerContainers.EnvInfoOf | src/processors/sub_processors/docker_sub_processor.py:525-529 | has_variables iff the count is positive; the name list is None iff the count is zero and otherwise has exactly count entries |
| DockerContainers.ParseEnvironmentInfo | src/processors/sub_processors/docker_sub_processor.py:513-529 | the loop over Config.Env computes exactly EnvInfoOf |
| DockerContainers.EnvNamesNoneSticks | src/processors/sub_processors/docker_sub_processor.py:520-523 | once an entry raises, the whole parse fails whatever follows |
| DockerContainers.ParseComposeInfo | src/processors/sub_processors/docker_sub_processor.py:569-603 | without a truthy project label the result is the empty dict; otherwise the project is the label's value and every depends_on entry is non-empty and trimmed |
| DockerContainers.InferDependencyType | src/processors/sub_processors/docker_sub_processor.py:319-347 | the first family the lower-cased name or image mentions, in the order database, cache, message_queue, search, storage, proxy; service exactly when none does |
| DockerContainers.InferDependencyTypeIgnoresCase | src/processors/sub_processors/docker_sub_processor.py:330-331 | the inferred type does not depend on the case of the name or image |
| DockerContainers.ContainerId | src/processors/sub_processors/docker_sub_processor.py:116 | the id starts with "container_{system_name}_" and ends with the container name |
| DockerContainers.BuiltContainer | src/processors/sub_processors/docker_sub_processor.py:188-213 | the document carries the container id and host, and its two relationships are HOSTED_BY to virtual_server_{system_name} and HOSTS back |
| DockerContainers.ContainerRecord | src/processors/sub_processors/docker_sub_processor.py:97-215 | a record without truthy inspect data gives no document; a built document has a container id on this host and exactly a HOSTED_BY/HOSTS pair |
| DockerContainers.ParseDependency | src/processors/sub_processors/docker_sub_processor.py:271-273 | without ':' the service is the trimmed entry and the condition service_started; the service name never contains ':' |
| DockerContainers.DependencyMetadata | src/processors/sub_processors/docker_sub_processor.py:298-303 | required_for_startup is true iff the condition is service_started; condition and dependency_type are recorded; no created_at yet |
| DockerContainers.PairsAppend | src/processors/sub_processors/docker_sub_processor.py:305 | appending a dependency pair, or nothing, keeps the list a sequence of DEPENDS_ON/SUPPORTS pairs |
| DockerContainers.DependencyPair | src/processors/sub_processors/docker_sub_processor.py:285-304 | a DEPENDS_ON edge to the target followed by its SUPPORTS edge back, with required_for_startup iff service_started and the inferred dependency type |
| DockerContainers.DependencyEdges | src/processors/sub_processors/docker_sub_processor.py:271-305 | a pair is created exactly when the (host, lower-cased project, service) key is in the lookup table, and nothing otherwise |
| DockerContainers.DocDependencyRels | src/processors/sub_processors/docker_sub_processor.py:268-305 | one document's dependency edges are DEPENDS_ON/SUPPORTS pairs from that document |
| DockerContainers.DocEdges | src/processors/sub_processors/docker_sub_processor.py:250-305 | one document's edges are DEPENDS_ON/SUPPORTS pairs from that document |
| DockerContainers.LookupKey | src/processors/sub_processors/docker_sub_processor.py:241-243 | no key without a host, a truthy project and a truthy service; it raises exactly on a non-string project or a list or dict service, which cannot be hashed; otherwise the key is (host, lower-cased project, service) |
| DockerContainers.BuildLookupTable | src/processors/sub_processors/docker_sub_processor.py:230-247 | the first loop computes exactly LookupTable, failing at the first document whose key raises |
| DockerContainers.ResolveDependencies | src/processors/sub_processors/docker_sub_processor.py:268-305 | the loop over depends_on computes exactly DocDependencyRels |
| DockerContainers.DocumentEdges | src/processors/sub_processors/docker_sub_processor.py:250-305 | one pass of the second loop computes exactly DocEdges |
| DockerContainers.DependencyRelsSnoc | src/processors/sub_processors/docker_sub_processor.py:250-305 | the second loop extends its result by the next document's edges |
| DockerContainers.DependencyLoop | src/processors/sub_processors/docker_sub_processor.py:250-305 | the second loop computes exactly DependencyRels |
| DockerContainers.CreateDependencyRelationships | src/processors/sub_processors/docker_sub_processor.py:217-317 | fails when the lookup table fails (a non-string project or an unhashable service, LookupTableFailsIff); otherwise gives DependencyRels over the lookup table of the documents |
| DockerContainers.LookupTableNoneSticks | src/processors/sub_processors/docker_sub_processor.py:230-247 | once a document's key raises, the whole pass fails |
| DockerContainers.LookupTableFailsIff | src/processors/sub_processors/docker_sub_processor.py:230-247 | the table fails exactly when some document's key raises: a non-string project or an unhashable service |
| DockerContainers.DependencyRelsNoneSticks | src/processors/sub_processors/docker_sub_processor.py:250-305 | once a document raises in the second loop, the whole pass fails |
| DockerContainers.UnresolvedDependencySkipped | src/processors/sub_processors/docker_sub_processor.py:276-283 | a dependency whose key is not in the lookup table adds no edge |
| DockerContainers.ContainerStep | src/processors/sub_processors/docker_sub_processor.py:79-88 | a record either adds nothing or appends one document with a container id of this host, keeping the earlier ones |
| DockerContainers.ContainerLoop | src/processors/sub_processors/docker_sub_processor.py:79-88 | every collected document has a container id of this host |
| DockerContainers.ContainerLoopSnoc | src/processors/sub_processors/docker_sub_processor.py:79-88 | the loop extends its result by one record's step |
| DockerContainers.ProcessSection | src/processors/sub_processors/docker_sub_processor.py:45-95 | a non-dict section or one without containers gives no documents and no relationships; every document has a container id of this host |
| DockerContainers.CollectContainers | src/processors/sub_processors/docker_sub_processor.py:79-88 | the container loop computes exactly ContainerLoop |
| DockerContainers.Process | src/processors/sub_processors/docker_sub_processor.py:45-95 | computes exactly ProcessSection |
| DockerContainers.ContainerLoopNoneSticks | src/processors/sub_processors/docker_sub_processor.py:79-88 | once a record raises outside the handler, the whole section fails |
| DockerContainers.SkippedContainer | src/processors/sub_processors/docker_sub_processor.py:81-88 | records without inspect data and records whose parsing raises are skipped, not fatal |
| DockerCompose.CanProcess | src/processors/config_parsers/docker_compose.py:45-48 | the parser accepts config type docker_compose or service type docker-compose, and nothing else |
| DockerCompose.KeysOrValue | src/processors/config_parsers/docker_compose.py:94-97 | a dict-valued field gives its keys as a list; an absent field gives the empty list |
| DockerCompose.ServiceInfoOf | src/processors/config_parsers/docker_compose.py:88-99 | the entry carries the service's name; it fails exactly when the volumes value has no length, or the environment value is neither a list nor has a length |
| DockerCompose.ServiceDetails | src/processors/config_parsers/docker_compose.py:83-102 | there are never more entries than services |
| DockerCompose.ServiceDetailsFailed | src/processors/config_parsers/docker_compose.py:84-100 | once one service fails, the whole parse fails |
| DockerCompose.ServiceDetailsNames | src/processors/config_parsers/docker_compose.py:84-100 | the entries are exactly the dict-configured services, one each, in the file's order |
| DockerCompose.TopLevel | src/processors/config_parsers/docker_compose.py:105-120 | an absent or falsy networks/volumes entry gives no names and count 0; a dict gives its keys and its size |
| DockerCompose.Parse | src/processors/config_parsers/docker_compose.py:50-129 | the loop over the services computes exactly the parse result of the loaded YAML |
| DockerCompose.ParseRejects | src/processors/config_parsers/docker_compose.py:64-77 | a non-dict or empty document, and one without a non-empty services dict, gives None |
| DockerCompose.ParseCounts | src/processors/config_parsers/docker_compose.py:79-102 | service_count is the number of service_names, which are the keys of services in order and non-empty; every detail entry names one of them |
| DockerCompose.PresentKeys | src/processors/config_parsers/docker_compose.py:84-85 | every dict-configured service is a key of services |
| DockerCompose.ImageBase | src/processors/config_parsers/docker_compose.py:159-161 | the image name keeps no ':' and is a prefix of the image; an image without ':' is kept whole |
| DockerCompose.ImageTerm | src/processors/config_parsers/docker_compose.py:157-162 | a falsy image adds nothing, a string its name before the first ':'; otherwise at most the image itself, and only a truthy non-string can raise |
| DockerCompose.ImageTerms | src/processors/config_parsers/docker_compose.py:156-162 | at most one term per service, no string term containing ':'; None once an image raises |
| DockerCompose.ExtractSearchTerms | src/processors/config_parsers/docker_compose.py:131-167 | None iff an image raises; otherwise the service names, networks, volumes, the image terms and finally "docker-compose", in that order |
| DockerCompose.CollectImageTerms | src/processors/config_parsers/docker_compose.py:156-162 | the image loop computes exactly the image terms, stopping at the first image that raises |
| DockerCompose.ImageTermsNoneSticks | src/processors/config_parsers/docker_compose.py:156-162 | once an image raises, the whole loop raises |
| DockerCompose.StringImageTerms | src/processors/config_parsers/docker_compose.py:156-162 | when every image is a string or falsy nothing raises, and every term is a string that is a prefix of some image |
| DockerCompose.ProjectOf | src/processors/config_parsers/docker_compose.py:280 | the project name contains no '-' |
| DockerCompose.FirstComposePart | src/processors/config_parsers/docker_compose.py:278-282 | the index of the first '_'-part starting with "compose-", or the number of parts when there is none |
| DockerCompose.ExtractComposeProject | src/processors/config_parsers/docker_compose.py:253-287 | a project is found iff some '_'-part starts with "compose-", and it is the project named by the first such part |
| DockerCompose.FindContainerId | src/processors/config_parsers/docker_compose.py:289-351 | a found id is non-empty and is the id of a container document on the host whose truthy compose project equals the project ignoring case and whose compose service is the service |
| DockerCompose.FindContainerIdFirst | src/processors/config_parsers/docker_compose.py:321-338 | when the documents before it do not match and do not raise, the first matching document with a non-empty string id is the one found |
| DockerCompose.ServiceRelationships | src/processors/config_parsers/docker_compose.py:221-241 | at most one pair of edges per service, and none when no service has a container |
| DockerCompose.LinkServices | src/processors/config_parsers/docker_compose.py:221-241 | the service loop computes exactly ServiceRelationships |
| DockerCompose.ServiceRelationshipsLink | src/processors/config_parsers/docker_compose.py:223-241 | every relationship links the configuration file to a container, CONFIGURES one way and CONFIGURED_BY back |
| DockerCompose.CreateRelationships | src/processors/config_parsers/docker_compose.py:169-251 | no services or no parse gives no relationships; without a compose-named part of the id none either; otherwise the relationships of the listed services for the first project found |
| NginxProxy.SpacesAfter | src/processors/config_parsers/nginx_proxy.py:57 | a match of a keyword followed by whitespace ends past the keyword and at least one blank, inside the text |
| NginxProxy.ValueAt | src/processors/config_parsers/nginx_proxy.py:57 | a directive value is non-empty and holds no ';' |
| NginxProxy.SetVariableAt | src/processors/config_parsers/nginx_proxy.py:67-68 | the position after a `set $name` prefix lies inside the text |
| NginxProxy.UpstreamServerAt | src/processors/config_parsers/nginx_proxy.py:67 | the quoted server is non-empty and holds no '"' |
| NginxProxy.UpstreamPortAt | src/processors/config_parsers/nginx_proxy.py:68 | the port is a non-empty run of digits |
| NginxProxy.WordEnd | src/processors/config_parsers/nginx_proxy.py:105 | the run of word characters starting at the position ends inside the text |
| NginxProxy.ForwardSchemeAt | src/processors/config_parsers/nginx_proxy.py:105 | a forward scheme is a non-empty word |
| NginxProxy.ListenAt | src/processors/config_parsers/nginx_proxy.py:79 | a listen port is a non-empty run of digits, and the scan moves forward |
| NginxProxy.LocationEnd | src/processors/config_parsers/nginx_proxy.py:115 | the location path ends inside the text |
| NginxProxy.LocationAt | src/processors/config_parsers/nginx_proxy.py:115 | a location path is non-empty and the scan moves forward |
| NginxProxy.MaxAgeFrom | src/processors/config_parsers/nginx_proxy.py:119 | the max-age value is a non-empty run of digits |
| NginxProxy.HstsAt | src/processors/config_parsers/nginx_proxy.py:119 | the max-age found after Strict-Transport-Security, in any case, is a non-empty run of digits |
| NginxProxy.CertificateDirAt | src/processors/config_parsers/nginx_proxy.py:150 | the certificate directory under /etc/letsencrypt/live/ is non-empty and holds no '/' |
| NginxProxy.DashEnd | src/processors/config_parsers/nginx_proxy.py:141 | the run of dashes ends inside the text |
| NginxProxy.NewlineHashAt | src/processors/config_parsers/nginx_proxy.py:141 | a header line continues with '#' on the next line, inside the text |
| NginxProxy.LazyGroupEnd | src/processors/config_parsers/nginx_proxy.py:141 | the shortest domain line ends after its start and inside the text |
| NginxProxy.InsertSorted | src/processors/config_parsers/nginx_proxy.py:80 | inserting keeps the list strictly increasing and adds exactly the new port |
| NginxProxy.SortedSet | src/processors/config_parsers/nginx_proxy.py:80 | the result is strictly increasing and holds exactly the ports of the input |
| NginxProxy.IncreasingUnique | src/processors/config_parsers/nginx_proxy.py:80 | two strictly increasing lists with the same elements are equal |
| NginxProxy.PortValues | src/processors/config_parsers/nginx_proxy.py:80 | one integer per listen text, each its decimal value |
| NginxProxy.ListenDigits | src/processors/config_parsers/nginx_proxy.py:79 | every listen text found is a run of digits |
| NginxProxy.Upstream | src/processors/config_parsers/nginx_proxy.py:67-76 | upstream, ip and port are all present or all absent, and upstream is "ip:port" with the port's decimal value |
| NginxProxy.ListenTexts | src/processors/config_parsers/nginx_proxy.py:79 | every listen text is a run of digits |
| NginxProxy.ListenPorts | src/processors/config_parsers/nginx_proxy.py:79-80 | listen_ports is strictly increasing and holds exactly the values of the listen texts |
| NginxProxy.Parse | src/processors/config_parsers/nginx_proxy.py:42-173 | a result is returned exactly when it holds a server name or an upstream, and it is then the extracted configuration |
| NginxProxy.ParseEmpty | src/processors/config_parsers/nginx_proxy.py:166-169 | an empty file parses to None |
| NginxProxy.ListenPortsCanonical | src/processors/config_parsers/nginx_proxy.py:80 | listen_ports is the only increasing list of the listen ports, whatever order the listen lines come in |
| NginxProxy.ParseSound | src/processors/config_parsers/nginx_proxy.py:54-167 | force_ssl implies ssl_enabled; listen ports increase; the upstream is present iff both set directives are, and is "ip:port"; a server name, when present, is non-empty unless an upstream is |
| NginxProxy.ServerNameFirstToken | src/processors/config_parsers/nginx_proxy.py:57-61 | with a server_name directive, the first token is the domain and the other tokens the aliases |
| NginxProxy.CanProcess | src/processors/config_parsers/nginx_proxy.py:37-40 | the parser needs both service type nginx-proxy-manager and config type proxy |
| NginxProxy.FlagTerms | src/processors/config_parsers/nginx_proxy.py:204-214 | the flag terms are exactly ssl-enabled and https with SSL, http2 with HTTP/2 and force-ssl with forced SSL |
| NginxProxy.ExtractSearchTerms | src/processors/config_parsers/nginx_proxy.py:175-216 | the address terms come first; every other term is one of the four flags; each flag is present iff its setting is on or an address term equals it |
| NginxProxy.TermsWithFlags | src/processors/config_parsers/nginx_proxy.py:204-216 | appending exactly the enabled flags to the address terms gives those guarantees |
| NginxProxy.DomainSlug | src/processors/config_parsers/nginx_proxy.py:239 | same length as the domain, lower case, with '.' and '_' replaced by '-' |
| NginxProxy.CertificateName | src/processors/config_parsers/nginx_proxy.py:259-267 | a name exists iff SSL is on and the certificate id is non-zero; it is the wildcard name exactly for id 9 |
| NginxProxy.Entity | src/processors/config_parsers/nginx_proxy.py:239-365 | id "proxy_{slug}", title "Reverse Proxy - {domain}", the domain then its aliases, SSL details iff SSL, listen port 443 or 80, letsencrypt provider for named certificates |
| NginxProxy.CreateProxyHostEntityAsWritten | src/processors/config_parsers/nginx_proxy.py:218-369 | as written: an entity exists iff there is a server name and the file sets a forward scheme |
| NginxProxy.CreateProxyHostEntity | src/processors/config_parsers/nginx_proxy.py:218-369 | an entity exists iff there is a server name; its backend protocol is the forward scheme, or http when none is set |
| NginxProxy.ProxyHostShape | src/processors/config_parsers/nginx_proxy.py:234-314 | the entity's domain, id, title, domain list, SSL section and listen port follow from the parsed configuration |
| NginxProxy.ProxyIdIgnoresCaseAndSeparators | src/processors/config_parsers/nginx_proxy.py:239-240 | two domains that differ only in case, or in '.' against '_', give the same entity id |
| NginxProxy.MissingSchemeLosesEntity | src/processors/config_parsers/nginx_proxy.py:105-109 | a file with a server name and no forward scheme loses its entity as written, while the corrected version gives backend protocol http |
| ParserRegistry.CanProcess | src/processors/config_parsers/registry.py:54-60 | each parser answers with its class's can_process, and the two parsers never accept the same pair |
| ParserRegistry.GetParser | src/processors/config_parsers/registry.py:39-65 | None iff no parser accepts the pair; otherwise the parser at the first accepting position of the list |
| ParserRegistry.ListParsers | src/processors/config_parsers/registry.py:67-74 | one class name per registered parser, in registration order |
| ParserRegistry.RegistryDispatch | src/processors/config_parsers/registry.py:27-29 | over the registered list, the NPM parser is chosen exactly for ("nginx-proxy-manager", "proxy"), the compose parser exactly for the other pairs with config type docker_compose or service type docker-compose, and nothing otherwise |
| ParserRegistry.AppendKeepsChoice | src/processors/config_parsers/registry.py:54-60 | registering more parsers after the list never changes a lookup that already succeeds |
| ServiceGrouping.FindContainer | src/utils/service_grouper.py:556-561 | None iff no container has the id; otherwise a container of the list with that id |
| ServiceGrouping.FoundHosts | src/utils/service_grouper.py:582-587 | at most one host per listed id |
| ServiceGrouping.ServiceId | src/utils/service_grouper.py:563-594 | the id always starts with "service_" and ends with "_{service_name}" |
| ServiceGrouping.ServiceIdOneHost | src/utils/service_grouper.py:575-591 | when every listed container is found on one host, the id is "service_{host}_{name}" in either mode |
| ServiceGrouping.FoundHostsAll | src/utils/service_grouper.py:582-587 | when every listed container is found on one host, the host list is that host once per id |
| ServiceGrouping.ServiceIdTwoHosts | src/utils/service_grouper.py:589-594 | with multi-host services allowed, containers on two different hosts give "service_global_{name}" |
| ServiceGrouping.ServiceLabel | src/utils/service_grouper.py:106-111 | empty iff none of the four label keys has a non-empty value; otherwise the value of the first key, in priority order, that has one |
| ServiceGrouping.SuffixMatch | src/utils/service_grouper.py:182 | 0 iff no separator-and-suffix-word ends the name; otherwise the length of a word that does, plus its separator |
| ServiceGrouping.TrailingDigitsStart | src/utils/service_grouper.py:185 | the digit run that ends the name starts here, and the character before it is not a digit |
| ServiceGrouping.DropWord | src/utils/service_grouper.py:182 | removing the suffix word leaves a prefix of the name |
| ServiceGrouping.DropNumber | src/utils/service_grouper.py:185 | removing the trailing number leaves a prefix of the name |
| ServiceGrouping.PrefixWith | src/utils/service_grouper.py:168-187 | the prefix is never longer than the name |
| ServiceGrouping.ExtractServicePrefix | src/utils/service_grouper.py:168-187 | the prefix is never longer than the name |
| ServiceGrouping.SuffixWordsArePlain | src/utils/service_grouper.py:182 | the suffix words hold no separators, digits or newlines |
| ServiceGrouping.SuffixMatchOf | src/utils/service_grouper.py:182 | a separator and a suffix word ending the name are matched with exactly that length |
| ServiceGrouping.PrefixWithDropsWord | src/utils/service_grouper.py:182-187 | a name ending in a separator and a suffix word loses exactly that word, then a trailing number, and is lower-cased |
| ServiceGrouping.PrefixDropsSuffixWord | src/utils/service_grouper.py:182-187 | "name-db", "name_redis" and the like lose exactly one suffix word, then a trailing number, and are lower-cased |
| ServiceGrouping.PrefixWithDropsNumber | src/utils/service_grouper.py:182-187 | a name ending in a separator and digits loses them and is lower-cased |
| ServiceGrouping.PrefixDropsNumber | src/utils/service_grouper.py:185-187 | "name-1", "name_42" lose the separator and number and are lower-cased |
| ServiceGrouping.PrefixKeepsPlainName | src/utils/service_grouper.py:172-187 | "nextcloud": a name without a separator is only lower-cased |
| ServiceGrouping.TrailingDigitsStartAt | src/utils/service_grouper.py:185 | the start of the final digit run is the position after the last non-digit |
| ServiceGrouping.CustomNetworks | src/utils/service_grouper.py:307-316 | exactly the container's networks other than bridge, host, none and default |
| ServiceGrouping.KeysOf | src/utils/service_grouper.py:103-114 | every pass but the network pass buckets a container under at most one, non-empty key |
| ServiceGrouping.BucketKeys | src/utils/service_grouper.py:117 | one key per bucket, in bucket order |
| ServiceGrouping.AddToBucket | src/utils/service_grouper.py:114 | the id is appended to the bucket of its key, or a new bucket is added last exactly when the key is new; nothing else changes |
| ServiceGrouping.AddToBucketKeeps | src/utils/service_grouper.py:114 | adding an ungrouped id keeps every bucket non-empty and made of ungrouped ids |
| ServiceGrouping.BucketContainers | src/utils/service_grouper.py:99-114 | every bucket is non-empty and holds only ungrouped container ids |
| ServiceGrouping.AddUnderKeysKeeps | src/utils/service_grouper.py:318-319 | adding an ungrouped id under several keys keeps the buckets non-empty and ungrouped |
| ServiceGrouping.SetGroup | src/utils/service_grouper.py:120-125 | the new entry is present, and every other entry was there before |
| ServiceGrouping.AssignStep | src/utils/service_grouper.py:117-126 | a bucket below the pass's minimum size changes nothing; one at or above it leaves the ungrouped set without exactly its ids |
| ServiceGrouping.AssignBucketsSnoc | src/utils/service_grouper.py:117-126 | the second loop extends its result by one bucket's step |
| ServiceGrouping.CollectBuckets | src/utils/service_grouper.py:99-114 | the first loop of a pass computes exactly BucketContainers |
| ServiceGrouping.GroupByKey | src/utils/service_grouper.py:88-337 | the label, prefix, compose and network passes compute exactly KeyPassResult |
| ServiceGrouping.AssignBucketsSound | src/utils/service_grouper.py:117-126 | the ungrouped set only shrinks, only by ids of big enough buckets, and every group is an old one or comes from such a bucket |
| ServiceGrouping.PassOnlyUngrouped | src/utils/service_grouper.py:99-102 | each pass groups only containers that were ungrouped when it started, and the ungrouped set only shrinks |
| ServiceGrouping.DependsMap | src/utils/service_grouper.py:199-208 | only ungrouped containers of the list with a non-empty depends_on are keys |
| ServiceGrouping.FindDependencyCluster | src/utils/service_grouper.py:239-258 | the cluster holds the start and only available ids besides, is closed under available dependencies and is the least such set; the members list it without duplicates, start first |
| ServiceGrouping.BuildDependsMap | src/utils/service_grouper.py:199-208 | the first loop of the dependencies pass computes exactly DependsMap |
| ServiceGrouping.SettledShrinks | src/utils/service_grouper.py:233 | a container with no ungrouped dependency keeps that property as the ungrouped set shrinks |
| ServiceGrouping.ClusterEntry | src/utils/service_grouper.py:226-232 | the group lists the cluster members with grouping method dependencies |
| ServiceGrouping.ClusterEntryGroup | src/utils/service_grouper.py:220-232 | a cluster of two or more ungrouped containers becomes a dependency group |
| ServiceGrouping.DependencyStep | src/utils/service_grouper.py:213-235 | one iteration only shrinks the ungrouped set, keeps visited as the ids it removed, settles its container, and adds only dependency groups |
| ServiceGrouping.GroupByDependencies | src/utils/service_grouper.py:189-237 | the ungrouped set only shrinks; afterwards no ungrouped container depends on another ungrouped one; every new group is a cluster of two or more ungrouped containers |
| ServiceGrouping.Standalone | src/utils/service_grouper.py:339-367 | every group is an old one or a one-container standalone service of a found leftover id |
| ServiceGrouping.LastStandaloneKept | src/utils/service_grouper.py:348-363 | the last leftover id with a found container always keeps its standalone service |
| ServiceGrouping.CreateStandaloneServices | src/utils/service_grouper.py:339-367 | the loop computes exactly Standalone over the enumeration of the leftover ids |
| ServiceGrouping.MapIds | src/utils/service_grouper.py:378-379 | every listed id maps to the service id; other entries stay unchanged |
| ServiceGrouping.LastListing | src/utils/service_grouper.py:377-379 | the index of the last group listing the id, with no later group listing it |
| ServiceGrouping.ContainerToServiceSound | src/utils/service_grouper.py:376-379 | a container is mapped exactly when some group lists it, and to the id of the last group listing it |
| ServiceGrouping.MarkContainer | src/utils/service_grouper.py:383-388 | only part_of_service changes; it is set to the mapped id when there is a non-empty one, and the container is unchanged otherwise |
| ServiceGrouping.BuildContainerToService | src/utils/service_grouper.py:376-379 | the two loops compute exactly ContainerToService |
| ServiceGrouping.UpdateContainersWithServiceId | src/utils/service_grouper.py:369-390 | one updated container per container, in order, each marked with its mapped service |
| ServiceGrouping.MarkedByItsGroup | src/utils/service_grouper.py:376-388 | a container some group lists is marked with the id of the last such group; any other is unchanged |
| ServiceGrouping.ServiceStatus | src/utils/service_grouper.py:424-430 | running iff every status is running, partially_running iff some are and some are not, stopped iff there are statuses and none runs |
| ServiceGrouping.FirstCategory | src/utils/service_grouper.py:530-532 | the first category with a keyword in the name, none before it matching, or -1 when none matches |
| ServiceGrouping.InferServiceCategory | src/utils/service_grouper.py:514-534 | application iff no category keyword occurs in the lower-cased name; otherwise the first category, in order, with one |
| ServiceGrouping.CategoryIsNotSizeTag | src/utils/service_grouper.py:518-534 | no category is called multi-container or standalone |
| ServiceGrouping.ServiceTags | src/utils/service_grouper.py:536-554 | service, docker, the lower-cased name and the category are tags; multi-container iff more than one container, standalone otherwise (up to a name equal to those tags); at most five tags |
| ServiceGrouping.FoundContainers | src/utils/service_grouper.py:405-409 | exactly the group's containers that are found |
| ServiceGrouping.PrimaryContainer | src/utils/service_grouper.py:415-418 | one of the found containers: the first running one when any runs, otherwise the first |
| ServiceGrouping.Statuses | src/utils/service_grouper.py:424 | one status per found container, in order |
| ServiceGrouping.NetworksOf | src/utils/service_grouper.py:444-446 | exactly the networks of the found containers |
| ServiceGrouping.ServiceDocOf | src/utils/service_grouper.py:400-469 | None exactly when two or more of the group's containers are found and one has no name, where the name join of the content raises (:433, :501-505); no document exactly when none is found |
| ServiceGrouping.NamelessContainerRaises | src/utils/service_grouper.py:501-505 | two distinct found containers, one without a name, make the document raise |
| ServiceGrouping.ServiceDocShape | src/utils/service_grouper.py:449-466 | the document has the group's id, containers, name and method, titled "{name} service on {host}" with the primary container's host, counts the found containers and is tagged service and docker |
| ServiceGrouping.Collect | src/utils/service_grouper.py:400-469 | the documents of the drafts: never more than the drafts |
| ServiceGrouping.CollectSnoc | src/utils/service_grouper.py:400-469 | one more draft raises, is skipped or appends its document |
| ServiceGrouping.CollectFailIff | src/utils/service_grouper.py:400-469 | collecting fails iff some draft raises |
| ServiceGrouping.CollectSound | src/utils/service_grouper.py:400-469 | a document is collected iff some draft holds it |
| ServiceGrouping.Drafts | src/utils/service_grouper.py:400-469 | one draft per group, in dict order, each that group's ServiceDocOf |
| ServiceGrouping.ServiceDocs | src/utils/service_grouper.py:392-471 | never more documents than groups |
| ServiceGrouping.ServiceDocsFailIff | src/utils/service_grouper.py:392-471 | generating the documents raises exactly when some group's document does |
| ServiceGrouping.ServiceDocsSound | src/utils/service_grouper.py:400-469 | when nothing raises, every document comes from a group |
| ServiceGrouping.ServiceDocsComplete | src/utils/service_grouper.py:400-469 | when nothing raises, every group with a found container has its document |
| ServiceGrouping.NamelessContainerNeeded | src/utils/service_grouper.py:392-471 | generation only raises when some container has no name |
| ServiceGrouping.GenerateServiceDocuments | src/utils/service_grouper.py:392-471 | the loop computes exactly ServiceDocs, stopping at the first document that raises |
| ServiceGrouping.OrderIn | src/utils/service_grouper.py:48 | each id of the set once, in list order |
| ServiceGrouping.Filtered | src/utils/service_grouper.py:213 | the enumeration without the ids that left the set, without duplicates |
| ServiceGrouping.Ids | src/utils/service_grouper.py:48 | the ids of the containers, in order |
| ServiceGrouping.KeyPassStep | src/utils/service_grouper.py:51-74 | a key pass keeps service ids starting with "service_", groups listing only input containers and known grouping methods, and shrinks the ungrouped set |
| ServiceGrouping.DependenciesStep | src/utils/service_grouper.py:61-64 | the dependencies pass keeps the groups well formed and shrinks the ungrouped set |
| ServiceGrouping.StandaloneStep | src/utils/service_grouper.py:76-79 | the standalone pass keeps the groups well formed |
| ServiceGrouping.GroupContainersIntoServices | src/utils/service_grouper.py:33-86 | fails only when some container has no name, and never when all have one; otherwise every container keeps all fields but part_of_service, a container that gets one is listed by the document with that id, and documents have a known grouping method, a "service_" id and list only input containers |
| ServiceGrouping.MarkedContainersDocumented | src/utils/service_grouper.py:82-83 | every marked container is listed by the document whose id is its mark |
| ServiceGrouping.MarkedContainerDocumented | src/utils/service_grouper.py:82-83 | a marked container is listed by the document whose id is its mark |
| ServiceGrouping.DocumentsWellFormed | src/utils/service_grouper.py:83 | every document has a known grouping method, a "service_" id and lists only input containers |
| EntitySchema.TypeReport | tests/test_entity_schema.py:153-199 | no warnings and at most one error; no error exactly when the field is untyped, or the value has the declared type, or one of the listed alternatives |
| EntitySchema.ConstraintsReport | tests/test_entity_schema.py:201-239 | no error exactly when the enum, pattern and ISO 8601 checks hold; at most one warning, given exactly for a string shorter than min_length |
| EntitySchema.MissingFieldReport | tests/test_entity_schema.py:104-113 | a missing or None field gives no warning and an error exactly when it is required and not nullable, and then only "{path}: Missing required field" |
| EntitySchema.FieldReported | tests/test_entity_schema.py:98-151 | validation goes on after a failure: every field's errors and warnings appear in the report of the fields |
| EntitySchema.FieldsCleanIff | tests/test_entity_schema.py:96-151 | the fields are free of errors exactly when every field is |
| EntitySchema.DirtyFieldsSomeDirty | tests/test_entity_schema.py:96-151 | a report with errors has a field with errors |
| EntitySchema.UnknownTypePasses | tests/test_entity_schema.py:184-199 | an unknown type name accepts every value, and float accepts integers |
| EntitySchema.NonObjectItemReported | tests/test_entity_schema.py:131-146 | under an object item schema, every array item that is not a dict is reported as "Must be object" at its own index |
| EntitySchema.NestedFieldsValidated | tests/test_entity_schema.py:119-126 | a nested dict is validated against the nested fields under the field's own path, and its errors fail the field |
| EntitySchema.EntitySchemaValidator.constructor | tests/test_entity_schema.py:22-33 | the validator holds the loaded schema and its entity type, with no errors or warnings yet |
| EntitySchema.EntitySchemaValidator.ValidateType | tests/test_entity_schema.py:153-182 | appends exactly TypeReport's errors, no warnings, and returns true iff there are none |
| EntitySchema.EntitySchemaValidator.ValidateConstraints | tests/test_entity_schema.py:201-239 | appends exactly ConstraintsReport's errors and warnings, and returns true iff there is no error |
| EntitySchema.EntitySchemaValidator.ValidateFields | tests/test_entity_schema.py:77-151 | appends exactly the errors and warnings of every field in schema order, and returns true iff there is no error |
| EntitySchema.EntitySchemaValidator.ValidateField | tests/test_entity_schema.py:99-149 | one iteration appends exactly that field's report, and returns true iff it has no error |
| EntitySchema.EntitySchemaValidator.ValidatePresent | tests/test_entity_schema.py:116-149 | a present field appends its type, nested, item and constraint reports in that order |
| EntitySchema.EntitySchemaValidator.ValidateItems | tests/test_entity_schema.py:131-146 | the item loop appends exactly the items' reports, in order |
| EntitySchema.EntitySchemaValidator.ValidateDocument | tests/test_entity_schema.py:45-75 | appends the reports of the root, tier1, tier2 and tier3 fields that the schema has, in that order, under the document id or "document[i]", and returns true iff none has an error |
| RelationshipValidation.InverseOfInverse | tests/test_relationships.py:18-34 | the table's inverse of an inverse type is the type itself |
| RelationshipValidation.MissingFieldsReported | tests/test_relationships.py:102-106 | one "missing required field" error per absent required field and nothing else; no error iff all seven fields are present |
| RelationshipValidation.FieldTypesReported | tests/test_relationships.py:109-133 | the type checks fail iff some field's check fails; the only warnings are the unknown-type warning |
| RelationshipValidation.TypedFieldsClean | tests/test_relationships.py:109-133 | no type error iff each of id, type, source_id, source_type, target_id and target_type is a string when present |
| RelationshipValidation.StructureCleanIff | tests/test_relationships.py:97-168 | the structure check adds no error exactly when all seven fields are present and strings, metadata is a dict and its created_at is a string in ISO 8601 form |
| RelationshipValidation.StructureWarnings | tests/test_relationships.py:113-166 | the structure warnings are exactly the unknown-type and id-prefix warnings |
| RelationshipValidation.UnknownTypeWarned | tests/test_relationships.py:113-118 | a type is warned about exactly when it is a string missing from the table of bidirectional types |
| RelationshipValidation.IdPrefixWarned | tests/test_relationships.py:160-166 | the prefix warning appears exactly when id, source_id and target_id are present, the id is a string and it does not start with "{source_id}_" |
| RelationshipValidation.AccumulateClean | tests/test_relationships.py:79-81 | a loop of checks adds no error exactly when no single check does |
| RelationshipValidation.StructuresCleanIff | tests/test_relationships.py:79-81 | the structure loop adds no error exactly when every relationship is well formed |
| RelationshipValidation.IndexFromKeys | tests/test_relationships.py:170-179 | a key is indexed iff it was already or some relationship has it with truthy ends and type; an entry is such a relationship, filed under its own key, or the old entry |
| RelationshipValidation.IndexFromIndexes | tests/test_relationships.py:170-179 | indexing files every keyed relationship, and only relationships of the list |
| RelationshipValidation.KeyedNonEmpty | tests/test_relationships.py:177-179 | a keyed relationship is a non-empty dict, so a found reverse is never falsy |
| RelationshipValidation.PairStepMarks | tests/test_relationships.py:186-229 | one pair check marks only keys whose relationship has its counterpart, and adds no error exactly when the relationship is paired |
| RelationshipValidation.PairsScanCleanIff | tests/test_relationships.py:184-231 | the pair loop adds no error exactly when every relationship is paired in the index |
| RelationshipValidation.PairsCleanIff | tests/test_relationships.py:181-231 | against the list's own index, no pair error exactly when every relationship of a bidirectional type has its reverse in the list |
| RelationshipValidation.EndCheckClean | tests/test_relationships.py:245-274 | an end check gives no warning, and no error exactly when the end's id is absent, or is a document of the stated type |
| RelationshipValidation.ReferencesCleanIff | tests/test_relationships.py:233-276 | the reference loop gives no warning, and no error exactly when both ends of every relationship resolve |
| RelationshipValidation.ReferencesSnoc | tests/test_relationships.py:237-274 | the reference loop extends its report by the source check then the target check of the next relationship |
| RelationshipValidation.OrphansSnoc | tests/test_relationships.py:284-292 | the orphan set grows exactly by the next relationship's truthy dangling id |
| RelationshipValidation.ReportsMissingAppend | tests/test_relationships.py:246-262 | a missing-entity error appears in two reports together iff in one of them |
| RelationshipValidation.EndCheckMissing | tests/test_relationships.py:245-262 | an end check reports its id missing exactly when the id is truthy and not a document |
| RelationshipValidation.OrphansAreMissing | tests/test_relationships.py:278-292 | an id is orphaned exactly when the reference loop reported it missing |
| RelationshipValidation.DocumentIndexLast | tests/test_relationships.py:61-64 | an id is indexed iff it is truthy and some document has it, and it maps to the last such document |
| RelationshipValidation.AllErrors | tests/test_relationships.py:74-95 | validate_all's errors are those of the structure, pair and reference loops, in that order |
| RelationshipValidation.AllCleanIff | tests/test_relationships.py:74-95 | validate_all adds no error exactly when every relationship is well formed, paired and resolves both ends |
| RelationshipValidation.ResolvedNoOrphans | tests/test_relationships.py:278-307 | when every reference resolves, no id is orphaned |
| RelationshipValidation.RelationshipValidator.constructor | tests/test_relationships.py:36-69 | documents are indexed by truthy id, a later duplicate winning; the relationship list is kept; no errors, warnings or index yet |
| RelationshipValidation.RelationshipValidator.ValidateStructure | tests/test_relationships.py:97-168 | appends exactly the structure report and returns true iff it has no error; the index is untouched |
| RelationshipValidation.RelationshipValidator.CheckFieldTypes | tests/test_relationships.py:109-133 | appends exactly the field type report and returns true iff it has no error |
| RelationshipValidation.RelationshipValidator.CheckRequired | tests/test_relationships.py:102-106 | appends exactly the missing-field report and returns true iff it has no error |
| RelationshipValidation.RelationshipValidator.CheckString | tests/test_relationships.py:109-133 | appends exactly one field's string check and returns true iff it has no error |
| RelationshipValidation.RelationshipValidator.CheckType | tests/test_relationships.py:113-118 | appends exactly the type check and returns true iff it has no error |
| RelationshipValidation.RelationshipValidator.CheckMetadata | tests/test_relationships.py:137-156 | appends exactly the metadata check and returns true iff it has no error |
| RelationshipValidation.RelationshipValidator.CheckIdFormat | tests/test_relationships.py:160-166 | appends exactly the id prefix check |
| RelationshipValidation.RelationshipValidator.BuildIndex | tests/test_relationships.py:170-179 | the index becomes IndexFrom over the relationships; errors and warnings are unchanged |
| RelationshipValidation.RelationshipValidator.ValidatePairs | tests/test_relationships.py:181-231 | appends exactly the pair loop's report and returns true iff it has no error |
| RelationshipValidation.RelationshipValidator.ValidateReferences | tests/test_relationships.py:233-276 | appends exactly the reference loop's report and returns true iff it has no error |
| RelationshipValidation.RelationshipValidator.CheckEnd | tests/test_relationships.py:245-274 | appends exactly one end's check and returns true iff it has no error |
| RelationshipValidation.RelationshipValidator.CheckOrphans | tests/test_relationships.py:278-307 | adds no error, appends the orphan warnings, and returns true iff no source or target id is orphaned |
| RelationshipValidation.RelationshipValidator.ValidateStructures | tests/test_relationships.py:79-81 | appends exactly the structure loop's report and returns true iff it has no error |
| RelationshipValidation.RelationshipValidator.ValidateAll | tests/test_relationships.py:74-95 | indexes every relationship, appends exactly the four checks' reports, and returns true iff it adds no error, iff every relationship is well formed, paired and resolves both ends |
| RelationshipPostProcessing.Select | src/processors/relationship_post_processor.py:152-153 | the selected documents are exactly those of the given kind; SelectAppend and SelectOne give their document order |
| RelationshipPostProcessing.SelectAppend | src/processors/relationship_post_processor.py:152-153 | selection distributes over concatenation, so the kept documents stay in document order |
| RelationshipPostProcessing.SelectOne | src/processors/relationship_post_processor.py:152-153 | a single document is kept iff it is of the kind |
| RelationshipPostProcessing.FirstByIdKeepsFirst | src/processors/relationship_post_processor.py:156-160 | deduplication leaves distinct ids, the same set of ids, and keeps exactly the first document with each id |
| RelationshipPostProcessing.DedupById | src/processors/relationship_post_processor.py:156-160 | the seen-set comprehension computes the first-by-id deduplication |
| RelationshipPostProcessing.MatchingProxies | src/processors/relationship_post_processor.py:174-181 | the matching proxies are exactly those whose domain or domain_names contain the DNS domain, in order |
| RelationshipPostProcessing.MatchDomain | src/processors/relationship_post_processor.py:174-181 | the loop over the proxies collects the matching proxies |
| RelationshipPostProcessing.DnsMatchesIff | src/processors/relationship_post_processor.py:165-181 | a (record, proxy) match exists exactly when the record has a domain and the proxy serves it |
| RelationshipPostProcessing.DnsCountsCoverDomains | src/processors/relationship_post_processor.py:165-223 | matched plus unmatched counts equal the number of DNS records with a domain; records without one are not counted |
| RelationshipPostProcessing.Routes | src/processors/relationship_post_processor.py:186-220 | each DNS match yields two relationships |
| RelationshipPostProcessing.RoutesPaired | src/processors/relationship_post_processor.py:186-220 | each match yields a ROUTES_TO followed by the ROUTES_FROM that mirrors it, with the same metadata |
| RelationshipPostProcessing.EmitRoutes | src/processors/relationship_post_processor.py:186-220 | the append loop adds both relationships of each match of one record, in proxy order |
| RelationshipPostProcessing.RouteRecord | src/processors/relationship_post_processor.py:165-223 | one DNS record is passed over without a domain, matched with its proxies' relationships appended, or counted unmatched |
| RelationshipPostProcessing.RouteAll | src/processors/relationship_post_processor.py:165-226 | the DNS loop returns the relationships of all matches and the matched / unmatched counts |
| RelationshipPostProcessing.ServersNamed | src/processors/relationship_post_processor.py:265-274 | the servers called a name are exactly the servers whose id names it after the first underscore |
| RelationshipPostProcessing.ServersByNameGroups | src/processors/relationship_post_processor.py:265-274 | the name index holds under each name exactly the servers of that name, in order, and no empty group |
| RelationshipPostProcessing.IndexServers | src/processors/relationship_post_processor.py:265-274 | the loop builds the name index |
| RelationshipPostProcessing.AtHostIff | src/processors/relationship_post_processor.py:326-333 | a container's server list matches the backend exactly when some server has the backend host as primary IP |
| RelationshipPostProcessing.MatchesInIff | src/processors/relationship_post_processor.py:301-340 | a container matches exactly when one of its port bindings matches |
| RelationshipPostProcessing.ServicesAtIff | src/processors/relationship_post_processor.py:293-340 | a service is matched exactly when some matching container is part of it |
| RelationshipPostProcessing.MatchedServicesSound | src/processors/relationship_post_processor.py:277-340 | every matched service comes from a container, a port binding and a server linked to the proxy's backend, and the proxy is not passed over |
| RelationshipPostProcessing.MatchedServicesComplete | src/processors/relationship_post_processor.py:277-340 | every service of a linked container, binding and server is matched |
| RelationshipPostProcessing.MatchedServicesIff | src/processors/relationship_post_processor.py:277-340 | the matched services are exactly the services linked to the proxy's backend host and port through the documents |
| RelationshipPostProcessing.MatchServers | src/processors/relationship_post_processor.py:326-340 | the innermost loop adds the container's service when a server of its name sits at the backend host |
| RelationshipPostProcessing.MatchBindings | src/processors/relationship_post_processor.py:301-340 | the port-binding loop adds the container's service exactly when the container matches |
| RelationshipPostProcessing.MatchServices | src/processors/relationship_post_processor.py:293-340 | the nested loops compute the set of matched services |
| RelationshipPostProcessing.EnumeratesEachAll | src/processors/relationship_post_processor.py:277-390 | each proxy's recorded visiting order lists its matched services once each |
| RelationshipPostProcessing.ServiceMatchesIff | src/processors/relationship_post_processor.py:348-384 | whatever order the sets are visited in, the (proxy, service) pairs are exactly the proxies with their matched services |
| RelationshipPostProcessing.ServiceMatchesDistinct | src/processors/relationship_post_processor.py:348-384 | with distinct proxies and each set visited once, no (proxy, service) pair repeats |
| RelationshipPostProcessing.Proxied | src/processors/relationship_post_processor.py:351-384 | each proxy-service match yields two relationships |
| RelationshipPostProcessing.ProxiedPaired | src/processors/relationship_post_processor.py:351-384 | each match yields a PROXIES followed by the PROXIED_BY that mirrors it |
| RelationshipPostProcessing.EmitServices | src/processors/relationship_post_processor.py:348-384 | one proxy's relationships are appended for every matched service, once each, in the visiting order |
| RelationshipPostProcessing.ServeProxy | src/processors/relationship_post_processor.py:277-390 | one proxy host is passed over, matched with its services' relationships appended, or counted unmatched |
| RelationshipPostProcessing.ServeAll | src/processors/relationship_post_processor.py:277-393 | the proxy loop returns the relationships of all matches, the visiting orders and the matched / unmatched counts |
| RelationshipPostProcessing.ServiceCountsCoverExamined | src/processors/relationship_post_processor.py:277-390 | matched plus unmatched counts equal the number of proxies not passed over |
| RelationshipPostProcessing.ServicePairsOnce | src/processors/relationship_post_processor.py:248-393 | a run never adds the same proxy-service pair twice |
| RelationshipPostProcessing.RelationshipPostProcessor.constructor | src/processors/relationship_post_processor.py:28-48 | the processor starts with the loaded documents and relationships and every counter at zero |
| RelationshipPostProcessing.RelationshipPostProcessor.BuildDnsProxyRelationships | src/processors/relationship_post_processor.py:136-226 | returns the routes of the deduplicated DNS records and proxies and adds the matched / unmatched counts; nothing else changes |
| RelationshipPostProcessing.RelationshipPostProcessor.BuildProxyServiceRelationships | src/processors/relationship_post_processor.py:228-393 | returns the proxy-service relationships of the deduplicated documents and adds the matched / unmatched counts; nothing else changes |
| RelationshipPostProcessing.RelationshipPostProcessor.Process | src/processors/relationship_post_processor.py:50-85 | appends both passes' relationships, sets relationships_created to their number and adds all four counters |
| ContainerProcessing.EntityId | src/processors/container_processor.py:228-230 | a container's entity id starts with "container_", and is "container_unknown_unknown" when the container has neither system nor name |
| ContainerProcessing.EntityIdNamesSystem | src/processors/container_processor.py:228-230 | the id is "container_" + system + "_" + name, and the relationship post-processor reads the system back out of it |
| ContainerProcessing.ExtractServiceTypeFromImage | src/processors/container_processor.py:324-368 | "unknown" for an empty image; otherwise the service type of the first table entry contained in the lower-cased image, else the image's base name |
| ContainerProcessing.FamilyTags | src/processors/container_processor.py:467-475 | at most one technology family contributes, with exactly two tags |
| ContainerProcessing.FallbackTags | src/processors/container_processor.py:457-477 | the fallback tags always hold docker, container and service; with an image, also its base name and its family's tags; and nothing else |
| ContainerProcessing.RedisImageTags | src/processors/container_processor.py:462-469 | a registry/path/redis:tag image is tagged redis, cache and database |
| ContainerProcessing.RedisImage | src/processors/container_processor.py:462-469 | such an image has base name redis and contains "redis" |
| ContainerProcessing.ContainsRedis | src/processors/container_processor.py:468 | such an image contains "redis" |
| ContainerProcessing.LowerRedisImage | src/processors/container_processor.py:462 | lower-casing leaves a lower-case image unchanged |
| ContainerProcessing.TagValues | src/processors/container_processor.py:396 | the reply's tag values, in order |
| ContainerProcessing.SemanticTags | src/processors/container_processor.py:370-405 | the fallback tags exactly when tagging is disabled, there is no client, or the reply is not a successful non-empty one; otherwise the LLM's tag values followed by docker, container, service |
| ContainerProcessing.IsContainerDocument | src/processors/container_processor.py:512 | a replaced document has type service and an id |
| ContainerProcessing.Remaining | src/processors/container_processor.py:510-513 | the documents left are exactly those that are not container service documents, in order |
| ContainerProcessing.Kept | src/processors/container_processor.py:510-513 | None iff some service document has a non-string id; otherwise exactly the documents that are not container service documents |
| ContainerProcessing.ContainerCount | src/processors/container_processor.py:527-530 | total_containers counts the documents the removal drops, and raises exactly when the removal would |
| ContainerProcessing.Count | src/processors/container_processor.py:527-530 | the number of container documents is the number the removal drops |
| ContainerProcessing.FilterRaisesOnServiceId | src/processors/container_processor.py:510-513 | a service document with a non-string id makes the removal raise wherever it stands |
| ContainerProcessing.RemainingAppend | src/processors/container_processor.py:510-513 | removal distributes over concatenation |
| ContainerProcessing.RemainingNone | src/processors/container_processor.py:510-513 | a list of container documents is removed entirely |
| ContainerProcessing.RemainingIdempotent | src/processors/container_processor.py:510-513 | removing twice removes nothing more |
| ContainerProcessing.ProcessedDocumentReplaced | src/processors/container_processor.py:230 | a document this processor builds for a container is one the next update removes |
| ContainerProcessing.RagData.constructor | src/processors/container_processor.py:496-509 | the loaded documents and their recorded container total |
| ContainerProcessing.RagData.ReplaceContainerDocuments | src/processors/container_processor.py:508-530 | if the removal raises nothing changes; otherwise the documents become the kept ones followed by the new ones, and if the recount raises the total stays; otherwise the removed count and total_containers are the counts before and after |
| ContainerProcessing.ReplaceIsStable | src/processors/container_processor.py:508-530 | running the update again with the same container documents keeps the same documents, raises nowhere, and gives total_containers equal to their number |
| ContentValidation.StripEmptyIffBlank | src/utils/content_validator.py:71 | a text strips to nothing exactly when it is all whitespace |
| ContentValidation.CountWords | src/utils/content_validator.py:27-42 | for a string, the number of whitespace-separated words of the stripped text |
| ContentValidation.CountWordsZero | src/utils/content_validator.py:27-42 | the count is 0 exactly for a non-string or an all-whitespace text |
| ContentValidation.ValidateContentLength | src/utils/content_validator.py:44-97 | valid exactly when the content is a non-empty string whose stripped length reaches the minimum and whose word count stays within the maximum; an empty or non-string content reports only that, and each limit violated is reported, and only those |
| ContentValidation.LeadingSpaceIgnored | src/utils/content_validator.py:71-72 | whitespace in front of non-empty content changes no verdict |
| ContentValidation.ValidateDocument | src/utils/content_validator.py:99-117 | a non-dict fails; otherwise the verdict is that of its content, and a dict without content fails as empty |
| ContentValidation.ValidateDocumentBatch | src/utils/content_validator.py:119-160 | total is the number of documents, valid is the number that pass, valid + invalid = total, and the rate is valid / total, or 1.0 for an empty batch |
| ContentValidation.RateBounds | src/utils/content_validator.py:147 | the rate of a non-empty batch lies between 0 and 1 and is 1 exactly when every document passes |
| ProxmoxCollection.Lines | src/collectors/sub_collectors/proxmox_sub_collector.py:252 | the stripped text always splits into at least one line |
| ProxmoxCollection.ConfigEntry | src/collectors/sub_collectors/proxmox_sub_collector.py:253-255 | a line yields an entry exactly when it holds ':' |
| ProxmoxCollection.ConfigEntryOf | src/collectors/sub_collectors/proxmox_sub_collector.py:254-255 | a line is split at its first ':' and both sides are stripped |
| ProxmoxCollection.AssignKeys | src/collectors/sub_collectors/proxmox_sub_collector.py:252-255 | a key is in the built dict exactly when some entry sets it |
| ProxmoxCollection.AssignLastWins | src/collectors/sub_collectors/proxmox_sub_collector.py:252-255 | a key holds the value of the last entry that sets it |
| ProxmoxCollection.ParseProxmoxConfig | src/collectors/sub_collectors/proxmox_sub_collector.py:248-257 | the loop builds the dict of the entries of the stripped text's lines |
| ProxmoxCollection.ConfigKeys | src/collectors/sub_collectors/proxmox_sub_collector.py:248-257 | a key is in the config exactly when some line sets it; lines without ':' contribute nothing |
| ProxmoxCollection.ConfigLastWins | src/collectors/sub_collectors/proxmox_sub_collector.py:248-257 | a key keeps the value of the last line that sets it |
| ProxmoxCollection.Fields | src/collectors/sub_collectors/proxmox_sub_collector.py:265-266 | a non-blank line's fields are its whitespace-separated words; a blank line has none |
| ProxmoxCollection.Wide | src/collectors/sub_collectors/proxmox_sub_collector.py:264-267 | every row kept has at least the required number of fields |
| ProxmoxCollection.WideIff | src/collectors/sub_collectors/proxmox_sub_collector.py:264-267 | a field list is a row exactly when some line yields it and it is wide enough |
| ProxmoxCollection.Rows | src/collectors/sub_collectors/proxmox_sub_collector.py:262-267 | every row of a table body has at least the required number of fields |
| ProxmoxCollection.RowsIff | src/collectors/sub_collectors/proxmox_sub_collector.py:262-267 | a line becomes a row exactly when it has at least the required number of fields; blank lines never do |
| ProxmoxCollection.StripEmptyNoWords | src/collectors/sub_collectors/proxmox_sub_collector.py:265 | a line that strips to nothing has no fields |
| ProxmoxCollection.StatusRecord | src/collectors/sub_collectors/proxmox_sub_collector.py:268-276 | a storage record is the row's first six fields, with the seventh as the percentage or 'N/A' |
| ProxmoxCollection.ParseStorageStatus | src/collectors/sub_collectors/proxmox_sub_collector.py:259-278 | one storage record per body row of at least six fields, in order |
| ProxmoxCollection.DiskRecord | src/collectors/sub_collectors/proxmox_sub_collector.py:314-321 | a disk record is the row's first six fields, in order |
| ProxmoxCollection.ParseDiskUsage | src/collectors/sub_collectors/proxmox_sub_collector.py:305-323 | one disk record per body row of at least six fields, in order |
| ProxmoxCollection.BridgeRecord | src/collectors/sub_collectors/proxmox_sub_collector.py:334-339 | a bridge record is the row's first three fields, with the fourth as the interfaces or '' |
| ProxmoxCollection.ParseBridgeInfo | src/collectors/sub_collectors/proxmox_sub_collector.py:325-341 | one bridge record per body row of at least three fields, in order |
| ProxmoxCollection.SectionColon | src/collectors/sub_collectors/proxmox_sub_collector.py:290-294 | a section line's first ':' follows its dir, lvm or zfs type |
| ProxmoxCollection.Classify | src/collectors/sub_collectors/proxmox_sub_collector.py:286-301 | a stripped line is skipped exactly when empty or a comment; a section exactly when it opens dir, lvm or zfs; a parameter exactly when it otherwise holds ':', split at the first ':' |
| ProxmoxCollection.CfgStep | src/collectors/sub_collectors/proxmox_sub_collector.py:285-301 | each line keeps every section typed and the current section present |
| ProxmoxCollection.CfgOf | src/collectors/sub_collectors/proxmox_sub_collector.py:285-301 | the parse state after any lines keeps every section typed |
| ProxmoxCollection.ParseStorageConfig | src/collectors/sub_collectors/proxmox_sub_collector.py:280-303 | the loop returns the sections of the line-by-line parse, or fails when a section line has no name |
| ProxmoxCollection.CfgFails | src/collectors/sub_collectors/proxmox_sub_collector.py:295 | once a line raises, the whole parse does |
| ProxmoxCollection.OrphanLinesIgnored | src/collectors/sub_collectors/proxmox_sub_collector.py:298 | lines before the first section line are ignored |
| ProxmoxCollection.NoSectionNoState | src/collectors/sub_collectors/proxmox_sub_collector.py:298 | without a section line the parse yields no sections |
| ProxmoxCollection.ParameterTouchesCurrentOnly | src/collectors/sub_collectors/proxmox_sub_collector.py:298-301 | a parameter line sets its key in the current section and changes no other section |
| ProxmoxProcessing.TagAt | src/processors/sub_processors/proxmox_sub_processor.py:98 | a tag= match at a position is a non-empty run of digits right after "tag=" there |
| ProxmoxProcessing.VlanTag | src/processors/sub_processors/proxmox_sub_processor.py:98-100 | the VLAN found is a non-empty digit run following some "tag="; none exactly when no position matches |
| ProxmoxProcessing.VlanTagFound | src/processors/sub_processors/proxmox_sub_processor.py:183-185 | the first "tag=" followed by a maximal digit run yields exactly those digits |
| ProxmoxProcessing.IpAt | src/processors/sub_processors/proxmox_sub_processor.py:179 | an ip= match at a position is a non-empty comma-free text right after "ip=" there |
| ProxmoxProcessing.IpAddress | src/processors/sub_processors/proxmox_sub_processor.py:179-181 | the address found is non-empty, comma-free and follows some "ip="; none exactly when no position matches |
| ProxmoxProcessing.IpAddressFound | src/processors/sub_processors/proxmox_sub_processor.py:179-181 | the first "ip=" followed by an address ending at a comma or the end yields exactly that address |
| ProxmoxProcessing.SizeAt | src/processors/sub_processors/proxmox_sub_processor.py:191 | a size= match at a position is digits and one unit letter G, M or K right after "size=" there |
| ProxmoxProcessing.StorageSize | src/processors/sub_processors/proxmox_sub_processor.py:191-193 | the size found is digits with a unit letter following some "size="; none exactly when no position matches |
| ProxmoxProcessing.ProbeOf | src/processors/sub_processors/proxmox_sub_processor.py:178-191 | a value is searched exactly when it is a non-empty string, skipped when falsy, and raises when it is truthy but not a string |
| ProxmoxProcessing.Find | src/processors/sub_processors/proxmox_sub_processor.py:178-193 | a probe fails exactly when the search would raise; a falsy value finds nothing; a string is searched |
| ProxmoxProcessing.Nesting | src/processors/sub_processors/proxmox_sub_processor.py:196-199 | nesting is a substring test on a string, false for a falsy value, and raises exactly for a truthy value that supports no "in" |
| ProxmoxProcessing.FirstNetFrom | src/processors/sub_processors/proxmox_sub_processor.py:95-96 | the index found is the first entry from a position whose key starts with "net" and whose value is a string; none exactly when there is none |
| ProxmoxProcessing.VmVlan | src/processors/sub_processors/proxmox_sub_processor.py:93-101 | a VLAN is the tag of the first string-valued net entry, which holds "tag="; no net entry gives none |
| ProxmoxProcessing.ScanVmVlan | src/processors/sub_processors/proxmox_sub_processor.py:93-101 | the VLAN loop computes the VLAN of the first net entry |
| ProxmoxProcessing.FirstNetDecides | src/processors/sub_processors/proxmox_sub_processor.py:95-101 | only the first net entry counts: the VLAN is its tag when it holds "tag=", else none, whatever follows |
| ProxmoxProcessing.GuestOf | src/processors/sub_processors/proxmox_sub_processor.py:81-91 | a guest record and its configuration must be dicts, cores and memory must convert to integers (defaults 1 and 512), and onboot is true exactly when it is '1' |
| ProxmoxProcessing.StatusTags | src/processors/sub_processors/proxmox_sub_processor.py:140-143 | 'active' exactly for a running guest, 'inactive' exactly for a stopped one, at most one tag |
| ProxmoxProcessing.VlanTags | src/processors/sub_processors/proxmox_sub_processor.py:144-145 | vlan-N for VLAN N, nothing without one |
| ProxmoxProcessing.BaseTagsPlain | src/processors/sub_processors/proxmox_sub_processor.py:139 | the fixed VM and LXC tags are neither status, VLAN nor feature tags |
| ProxmoxProcessing.GuestTags | src/processors/sub_processors/proxmox_sub_processor.py:252-259 | the five fixed tags first, then 'active' or 'inactive' by status, a VLAN tag exactly for the VLAN, and 'nesting' exactly for the nesting feature |
| ProxmoxProcessing.HostIdsDistinct | src/processors/sub_processors/proxmox_sub_processor.py:148-262 | on one system a VM and an LXC never share an id, and two guests of one kind share one exactly when their vmids render alike |
| ProxmoxProcessing.VmDocument | src/processors/sub_processors/proxmox_sub_processor.py:78-156 | a VM document exists exactly when the record is well-formed, and carries the VM id, type host, the name or its vm-N default, the title, cores, memory, boot flag, the first net entry's VLAN and the VM tags |
| ProxmoxProcessing.LxcSettingsOf | src/processors/sub_processors/proxmox_sub_processor.py:174-199 | the network and storage probes fail exactly when their values raise, and 'nesting' is the only feature, present exactly when the features hold nesting=1 |
| ProxmoxProcessing.LxcSettingsSources | src/processors/sub_processors/proxmox_sub_processor.py:174-193 | the address and VLAN are searched for in net0, the storage size in rootfs |
| ProxmoxProcessing.LxcDocument | src/processors/sub_processors/proxmox_sub_processor.py:158-270 | an LXC document exists exactly when the record and its settings are well-formed, and carries the LXC id, type host, name, hostname defaulting to the name, title, cores, memory, boot flag, address, VLAN, storage, features and the LXC tags |
| ProxmoxProcessing.Built | src/processors/sub_processors/proxmox_sub_processor.py:62-72 | every item is built, in order, or the build fails exactly when some item's build fails |
| ProxmoxProcessing.BuildAll | src/processors/sub_processors/proxmox_sub_processor.py:62-72 | the loop builds every item in order, stopping at a failure |
| ProxmoxProcessing.BuiltFails | src/processors/sub_processors/proxmox_sub_processor.py:62-72 | a failure on a prefix fails the whole list |
| ProxmoxProcessing.Process | src/processors/sub_processors/proxmox_sub_processor.py:37-76 | the documents are those of the guest documents of the section |
| ProxmoxProcessing.DocumentsInOrder | src/processors/sub_processors/proxmox_sub_processor.py:37-76 | a non-dict section gives no documents; otherwise one document per VM, in order, then one per LXC container, and the run fails exactly when a list is not iterable or a build fails |

## Left out

### Outside the model
- I/O is not modelled: SSH, Docker and HTTP collection, and reading or writing `rag_data.json`, JSONL and YAML files. Each processor receives its already loaded data as values and returns what it would write.
- Clock readings (`datetime.now().isoformat()`) are not modelled; they are the parameters `now` and `timestamp`.
- `datetime.fromisoformat` is not modelled; it is the parameter `validIso`.
- `re.match` with patterns taken from the schema file is not modelled; it is the parameter `matches`. A general regular-expression engine is outside the model.
- The LLM client and its network calls are not modelled. Its reply is the `ContainerProcessing.Reply` value.
- The thread pool of the parallel container loop is not modelled; the containers are processed in sequence.
- Logging, `print` and the prose of warning messages are not modelled. Findings are kept as structured values that hold the data the messages are formatted from.
- Regular expressions are modelled by hand, one pattern at a time. `\s` is Python's whitespace set. `\d`, `\w`, `lower()` and IGNORECASE are ASCII only.
- `src/config/settings.py` is not part of this model. The temporal-cleaning configuration it supplies is a value given to the cleaner. The fallback configuration of `rag_utils.py` is written out as constants.
- Some value types have no text in the model: floats, lists and dicts rendered by an f-string or `str()`. Builders that would need that text return None, or leave the text out.
- EntitySchema.Render: a float, list or dict in a message is shown as `<float>`, `<list>` or `<dict>`, not as Python's `str()` of it; only the message text differs.
- RelationshipValidation.IdFormatCheck: a float, list or dict `source_id` has no text in the model, so no id-prefix warning is given for it. Python warns when the id does not start with `str(source_id) + "_"`.

### Documents and their prose
- The generated prose is not modelled. This covers `_generate_content` and the `_describe_*` / `_summarize_*` helpers of `rag_utils.py`, `_build_container_content` of the Docker processor, `_generate_content_description` of the Nginx parser, `_generate_service_content` of the grouper, the `content` sentences of the Proxmox documents, and `_create_llm_content`.
- `assemble_rag_entity` is not modelled as a whole. Its title (`Assembly.Title`) and tags (`Assembly.PrepareTags`) are.
- The Docker processor's network, mount, resource, config, healthcheck, device, detailed-state and platform parsers are not modelled; they fill the document's details tier.
  - `DockerContainers.ContainerRecord`: keeps only the metadata fields the dependency pass reads.
  - It checks for exceptions only in the image, state, port, environment and compose parsers.
- `ContainerProcessing` covers only the entity id, the service type, the fallback and semantic tags and the document replacement. `_convert_to_document_format`, `_update_host_entities` and the pipeline around them are not modelled.
- The float fields are not modelled: the Proxmox `memory_gb` rounding, size conversions and healthcheck durations.
  - `ContentValidation.ValidateDocumentBatch`: the validation rate is an exact real, not a float.

### Order, sets and equality
- Assembly.PrepareTags: the order of `list(set(...))` is not modelled, only its elements and that none repeats.
- ContainerProcessing.FallbackTags: the fallback tags are a set; the list order `list(set(tags))` gives is not modelled.
- RelationshipPostProcessing.RelationshipPostProcessor.Process: the order in which each proxy's set of matched services is visited is the output `orders`, constrained to list each service once.
- The seen-sets of the post-processor compare ids by value. Python's hash equality between numbers of different types (`1 == 1.0 == True`) is only modelled where `EntitySchema.PyEq` is used.
- ProxmoxCollection.ParseProxmoxConfig: a dict's key order is not modelled; the result is a map.
- ProxmoxCollection.ParseStorageConfig: the storage sections are kept in a map, and so are each section's parameters. Python builds insertion-ordered dicts (`proxmox_sub_collector.py:282-303`), so the order of the sections and of their parameters is not modelled.
- ServiceGrouping.ServiceDocOf: `images`, `networks` and `tags` are sets. Python returns the lists `list(set(...))`, `list(networks)` and `list(tags)` (`service_grouper.py:441`, `service_grouper.py:462`, `service_grouper.py:554`), whose order is arbitrary. The constant `type: 'service'`, the `grouping_details` text and the prose `content` are not fields of the modelled document.
- ServiceGrouping.GroupContainersIntoServices: the dependency pass visits the ungrouped set (`service_grouper.py:213`) and the standalone pass iterates it (`service_grouper.py:348`) in the order of the input containers, and a cluster is listed in the order it was reached. Python uses an arbitrary set order in all three places. With multi-host services off, the service id takes its host from `container_ids[0]` (`service_grouper.py:576-578`), so with `list(cluster)` (`service_grouper.py:226-229`) the model fixes a host that Python leaves to set order. Only the top-level entry fixes the orders; the pass methods take the order of their set as a parameter.

### Crash paths
- RelationshipValidation: the paths where the Python validator itself would crash are not modelled. These are a non-string id checked with `startswith`, an unhashable id used as a dict key, a non-dict metadata in the pair check, and joining non-string orphan ids.
- RelationshipValidation: `get_statistics`, `get_report`, `load_data`'s file handling and `main` are not modelled.
- EntitySchema.EntitySchemaValidator.ValidateDocument: requires a dict document. The source calls `doc.get` and raises on anything else, and its only caller passes dicts.
- EntitySchema: `_load_schema`, `get_report` and `main` are not modelled.
- EntitySchema: the schema is typed, one record per field schema, so a malformed schema cannot be represented. Python would raise on such a schema at the first use of the malformed part.
- RelationshipPostProcessing: the paths where the post-processor would raise on malformed documents are not modelled, for example a non-dict `metadata` or an unhashable id. Its `main` is not modelled.
- ProxmoxCollection.ParseStorageConfig: the IndexError of a section line without a name is modelled as None for the whole parse.
- ServiceGrouping.UpdateContainersWithServiceId: `container.copy()` is shallow (`service_grouper.py:383-386`), so Python also writes `part_of_service` into the caller's own metadata dict. The model returns new values and leaves the input unchanged, so that aliasing is not captured. A container without a `metadata` key raises KeyError in Python; the model's containers always carry metadata, so that path cannot be represented.
- DockerCompose.FindContainerId: a matching document whose id is a truthy non-string is returned as is by Python and then used as a relationship target. The model returns None for it, and for an empty string id, so no relationship is built from such an id.
- ProxmoxProcessing: `int()` of a string follows ASCII digits with an optional sign and surrounding whitespace. Python's acceptance of underscores and non-ASCII digits is not modelled.

### Modelled as functions
- NginxProxy.ExtractSearchTerms: modelled as a function over the parsed configuration rather than a loop that appends to a list. The terms and their order are the same.
- `create_hosted_by_relationship` of `relationship_helper.py` is not modelled separately. It is `Relationships.CreateBidirectionalRelationship` with the type HOSTED_BY.

## Findings

| source | as written | input that shows it | evidently intended | confidence | as-written member | corrected member |
|---|---|---|---|---|---|---|
| src/processors/config_parsers/nginx_proxy.py:105-109 | `parse` always sets the key `forward_scheme`, to None when the file has no `set $forward_scheme`. So `parsed_config.get('forward_scheme', 'http')` returns None, `protocol.upper()` raises, and the exception handler drops the whole entity. | a host file with a `server_name` line and no `set $forward_scheme` line | a backend protocol defaulting to http, and the entity built | not executed | NginxProxy.CreateProxyHostEntityAsWritten (shown by NginxProxy.MissingSchemeLosesEntity) | NginxProxy.CreateProxyHostEntity |
